/**
  The LSTM: one step computes `a = x.dot(Wx) + prev_h.dot(Wh) + b`, splits
  it into the input, forget, output and block gates `i, f, o, g`, and
  updates `next_c = f * prev_c + i * g`, `next_h = o * tanh(next_c)`; its
  backward pass; and the loops that run it over a sequence.  `sigmoid` and
  `tanh` are parameters; the backward pass reads their local derivatives
  off their outputs (`s * (1 - s)`, `1 - t**2`), which is the exact
  polynomial part that is modelled here.
*/
module Lstm {
  import opened LinAlg
  import opened Reshape

  /** `(i, f, o, g, next_c, prev_c, prev_h, Wx, Wh, x)`, what one step keeps
      for its backward pass. */
  datatype StepCache = StepCache(i: Mat, f: Mat, o: Mat, g: Mat, nextC: Mat,
                                 prevC: Mat, prevH: Mat, wx: Mat, wh: Mat, x: Mat)

  datatype StepResult = StepResult(nextH: Mat, nextC: Mat, cache: StepCache)

  /** The six gradients of one step: `dx, dprev_h, dprev_c, dWx, dWh, db`. */
  datatype StepGrads = StepGrads(dx: Mat, dprevH: Mat, dprevC: Mat, dWx: Mat, dWh: Mat, db: Vec)

  /** One (N, H) block per gate, in the order `i, f, o, g`. */
  datatype Gates = Gates(i: Mat, f: Mat, o: Mat, g: Mat)

  // ---------------------------------------------------------------------
  // The gate layout: `np.split(a, 4, axis=1)` and `np.hstack`

  lemma GateBounds(h: nat, k: nat)
    requires k < 4
    ensures k * h + h <= 4 * h
  {
    if k == 0 {
    } else if k == 1 {
    } else if k == 2 {
    } else {
    }
  }

  /** Block `k` of `np.split(a, 4, axis=1)`: columns `k*H` to `k*H + H - 1`. */
  function Gate(a: Mat, h: nat, k: nat): (r: Mat)
    requires k < 4 && IsMat(a, |a|, 4 * h)
    ensures IsMat(r, |a|, h)
  {
    GateBounds(h, k);
    seq(|a|, n requires 0 <= n < |a| => a[n][k * h .. k * h + h])
  }

  /** `np.split(a, 4, axis=1)`. */
  function Split(a: Mat, h: nat): (gs: Gates)
    requires IsMat(a, |a|, 4 * h)
    ensures GatesShaped(gs, |a|, h)
  {
    Gates(Gate(a, h, 0), Gate(a, h, 1), Gate(a, h, 2), Gate(a, h, 3))
  }

  /** Four (N, H) blocks. */
  predicate GatesShaped(gs: Gates, n: nat, h: nat) {
    IsMat(gs.i, n, h) && IsMat(gs.f, n, h) && IsMat(gs.o, n, h) && IsMat(gs.g, n, h)
  }

  /** `np.hstack((i, f, o, g))`: each row is the four rows laid end to end. */
  function HStack(gs: Gates, n: nat, h: nat): (a: Mat)
    requires GatesShaped(gs, n, h)
    ensures IsMat(a, n, 4 * h)
  {
    seq(n, r requires 0 <= r < n => gs.i[r] + gs.f[r] + gs.o[r] + gs.g[r])
  }

  /** Unit `j` of gate `k` sits in column `k*H + j` of the stacked matrix. */
  lemma {:induction false} HStackAt(gs: Gates, n: nat, h: nat, r: nat, j: nat)
    requires GatesShaped(gs, n, h) && r < n && j < h
    ensures HStack(gs, n, h)[r][j] == gs.i[r][j]
    ensures HStack(gs, n, h)[r][h + j] == gs.f[r][j]
    ensures HStack(gs, n, h)[r][2 * h + j] == gs.o[r][j]
    ensures HStack(gs, n, h)[r][3 * h + j] == gs.g[r][j]
  {
  }

  /** Splitting the stacked gates gives the gates back. */
  lemma {:induction false} SplitHStack(gs: Gates, n: nat, h: nat)
    requires GatesShaped(gs, n, h)
    ensures Split(HStack(gs, n, h), h) == gs
  {
    var a := HStack(gs, n, h);
    forall r | 0 <= r < n
      ensures Gate(a, h, 0)[r] == gs.i[r] && Gate(a, h, 1)[r] == gs.f[r]
      ensures Gate(a, h, 2)[r] == gs.o[r] && Gate(a, h, 3)[r] == gs.g[r]
    {
      var row := gs.i[r] + gs.f[r] + gs.o[r] + gs.g[r];
      assert a[r] == row;
      assert row[0..h] == gs.i[r];
      assert row[h..2 * h] == gs.f[r];
      assert row[2 * h..3 * h] == gs.o[r];
      assert row[3 * h..4 * h] == gs.g[r];
    }
  }

  /** Stacking the split blocks gives the matrix back. */
  lemma {:induction false} HStackSplit(a: Mat, h: nat)
    requires IsMat(a, |a|, 4 * h)
    ensures HStack(Split(a, h), |a|, h) == a
  {
    var gs := Split(a, h);
    forall r | 0 <= r < |a|
      ensures HStack(gs, |a|, h)[r] == a[r]
    {
      assert gs.i[r] == a[r][0..h] && gs.f[r] == a[r][h..2 * h];
      assert gs.o[r] == a[r][2 * h..3 * h] && gs.g[r] == a[r][3 * h..4 * h];
      assert a[r][0..h] + a[r][h..2 * h] + a[r][2 * h..3 * h] + a[r][3 * h..4 * h] == a[r];
    }
  }

  /** Pairing two stacked matrices pairs them gate by gate. */
  lemma {:induction false} InnerHStack(gs: Gates, es: Gates, n: nat, h: nat)
    requires GatesShaped(gs, n, h) && GatesShaped(es, n, h)
    ensures Inner(HStack(gs, n, h), HStack(es, n, h))
         == Inner(gs.i, es.i) + Inner(gs.f, es.f) + Inner(gs.o, es.o) + Inner(gs.g, es.g)
    decreases n
  {
    if n > 0 {
      var k := n - 1;
      var front := Gates(gs.i[..k], gs.f[..k], gs.o[..k], gs.g[..k]);
      var efront := Gates(es.i[..k], es.f[..k], es.o[..k], es.g[..k]);
      assert HStack(gs, n, h)[..k] == HStack(front, k, h);
      assert HStack(es, n, h)[..k] == HStack(efront, k, h);
      InnerHStack(front, efront, k, h);
      DotAppend(gs.i[k] + gs.f[k] + gs.o[k], gs.g[k], es.i[k] + es.f[k] + es.o[k], es.g[k]);
      DotAppend(gs.i[k] + gs.f[k], gs.o[k], es.i[k] + es.f[k], es.o[k]);
      DotAppend(gs.i[k], gs.f[k], es.i[k], es.f[k]);
    }
  }

  // ---------------------------------------------------------------------
  // lstm_step_forward

  /** `x` is (N, D), `prev_h` and `prev_c` are (N, H), `Wx` is (D, 4H),
      `Wh` is (H, 4H) and `b` is (4H,). */
  predicate StepShapes(x: Mat, prevH: Mat, prevC: Mat, wx: Mat, wh: Mat, b: Vec) {
    && IsMat(x, |x|, |wx|) && IsMat(prevH, |x|, |wh|) && IsMat(prevC, |x|, |wh|)
    && IsMat(wx, |wx|, 4 * |wh|) && IsMat(wh, |wh|, 4 * |wh|) && |b| == 4 * |wh|
  }

  /** A cache of shape (N, D, H). */
  predicate CacheShaped(c: StepCache, n: nat, d: nat, h: nat) {
    && IsMat(c.i, n, h) && IsMat(c.f, n, h) && IsMat(c.o, n, h) && IsMat(c.g, n, h)
    && IsMat(c.nextC, n, h) && IsMat(c.prevC, n, h) && IsMat(c.prevH, n, h)
    && IsMat(c.wx, d, 4 * h) && IsMat(c.wh, h, 4 * h) && IsMat(c.x, n, d)
  }

  /** `a = x.dot(Wx) + prev_h.dot(Wh) + b`, of shape (N, 4H). */
  function PreActivation(x: Mat, prevH: Mat, wx: Mat, wh: Mat, b: Vec): (a: Mat)
    requires IsMat(x, |x|, |wx|) && IsMat(prevH, |x|, |wh|)
    requires IsMat(wx, |wx|, |b|) && IsMat(wh, |wh|, |b|)
    ensures IsMat(a, |x|, |b|)
  {
    AddBias(MatAdd(MatMul(x, wx, |b|), MatMul(prevH, wh, |b|)), b)
  }

  /** The gate values `i, f, o = sigmoid(a_i, a_f, a_o)` and `g = tanh(a_g)`. */
  function GateValues(a: Mat, h: nat, sigmoid: real -> real, tanh: real -> real): (gs: Gates)
    requires IsMat(a, |a|, 4 * h)
    ensures GatesShaped(gs, |a|, h)
  {
    var blocks := Split(a, h);
    Gates(MapMat(sigmoid, blocks.i), MapMat(sigmoid, blocks.f), MapMat(sigmoid, blocks.o), MapMat(tanh, blocks.g))
  }

  /** `next_c = f * prev_c + i * g`. */
  function NextCell(gs: Gates, prevC: Mat, h: nat): (c: Mat)
    requires GatesShaped(gs, |prevC|, h) && IsMat(prevC, |prevC|, h)
    ensures IsMat(c, |prevC|, h)
  {
    MatAdd(MatHadamard(gs.f, prevC), MatHadamard(gs.i, gs.g))
  }

  /** `next_h = o * tanh(next_c)`. */
  function NextHidden(o: Mat, nextC: Mat, tanh: real -> real): (nh: Mat)
    requires SameShape(o, nextC)
    ensures SameShape(nh, nextC)
  {
    MatHadamard(o, MapMat(tanh, nextC))
  }

  /** One entry of the cell update, `f * prev_c + i * g`. */
  function CellValue(f: real, prevC: real, i: real, g: real): real {
    f * prevC + i * g
  }

  /** One entry of the output, `o * tanh(c)`. */
  function HiddenValue(o: real, c: real, tanh: real -> real): real {
    o * tanh(c)
  }

  lemma {:induction false} NextCellAt(gs: Gates, prevC: Mat, h: nat, r: nat, j: nat)
    requires GatesShaped(gs, |prevC|, h) && IsMat(prevC, |prevC|, h) && r < |prevC| && j < h
    ensures NextCell(gs, prevC, h)[r][j] == CellValue(gs.f[r][j], prevC[r][j], gs.i[r][j], gs.g[r][j])
  {
  }

  lemma {:induction false} NextHiddenAt(o: Mat, nextC: Mat, tanh: real -> real, r: nat, j: nat)
    requires SameShape(o, nextC) && r < |o| && j < |o[r]|
    ensures NextHidden(o, nextC, tanh)[r][j] == HiddenValue(o[r][j], nextC[r][j], tanh)
  {
  }

  /** `lstm_step_forward(x, prev_h, prev_c, Wx, Wh, b)`, with `H` read off `Wh`. */
  function StepForward(x: Mat, prevH: Mat, prevC: Mat, wx: Mat, wh: Mat, b: Vec,
                       sigmoid: real -> real, tanh: real -> real): (r: StepResult)
    requires StepShapes(x, prevH, prevC, wx, wh, b)
    ensures IsMat(r.nextH, |x|, |wh|) && IsMat(r.nextC, |x|, |wh|)
    ensures CacheShaped(r.cache, |x|, |wx|, |wh|)
    ensures r.cache.nextC == r.nextC && r.cache.prevC == prevC && r.cache.prevH == prevH
    ensures r.cache.wx == wx && r.cache.wh == wh && r.cache.x == x
  {
    var gs := GateValues(PreActivation(x, prevH, wx, wh, b), |wh|, sigmoid, tanh);
    var nextC := NextCell(gs, prevC, |wh|);
    var nextH := NextHidden(gs.o, nextC, tanh);
    StepResult(nextH, nextC, StepCache(gs.i, gs.f, gs.o, gs.g, nextC, prevC, prevH, wx, wh, x))
  }

  /** Entry `j` of row `r` of the pre-activation is the affine map of row `r`
      at column `j`. */
  lemma {:induction false} PreActivationAt(x: Mat, prevH: Mat, wx: Mat, wh: Mat, b: Vec, r: nat, j: nat)
    requires IsMat(x, |x|, |wx|) && IsMat(prevH, |x|, |wh|)
    requires IsMat(wx, |wx|, |b|) && IsMat(wh, |wh|, |b|)
    requires r < |x| && j < |b|
    ensures PreActivation(x, prevH, wx, wh, b)[r][j]
         == Dot(x[r], Col(wx, j)) + Dot(prevH[r], Col(wh, j)) + b[j]
  {
  }

  /** Each gate reads its own block of columns of `a`, in the order
      `i, f, o, g`: unit `j` of gate `k` reads column `k*H + j`. */
  lemma {:induction false} GateValuesAt(a: Mat, h: nat, sigmoid: real -> real, tanh: real -> real, r: nat, j: nat)
    requires IsMat(a, |a|, 4 * h) && r < |a| && j < h
    ensures GateValues(a, h, sigmoid, tanh).i[r][j] == sigmoid(a[r][j])
    ensures GateValues(a, h, sigmoid, tanh).f[r][j] == sigmoid(a[r][h + j])
    ensures GateValues(a, h, sigmoid, tanh).o[r][j] == sigmoid(a[r][2 * h + j])
    ensures GateValues(a, h, sigmoid, tanh).g[r][j] == tanh(a[r][3 * h + j])
  {
    var blocks := Split(a, h);
    assert blocks.i[r][j] == a[r][j];
    assert blocks.f[r][j] == a[r][h + j];
    assert blocks.o[r][j] == a[r][2 * h + j];
    assert blocks.g[r][j] == a[r][3 * h + j];
  }

  /** The step's gates are those of its pre-activation, and the new states
      are `next_c = f * prev_c + i * g` and `next_h = o * tanh(next_c)`. */
  lemma {:induction false} StepForwardAt(x: Mat, prevH: Mat, prevC: Mat, wx: Mat, wh: Mat, b: Vec,
                                         sigmoid: real -> real, tanh: real -> real, r: nat, j: nat)
    requires StepShapes(x, prevH, prevC, wx, wh, b) && r < |x| && j < |wh|
    ensures var res := StepForward(x, prevH, prevC, wx, wh, b, sigmoid, tanh);
            && Gates(res.cache.i, res.cache.f, res.cache.o, res.cache.g)
               == GateValues(PreActivation(x, prevH, wx, wh, b), |wh|, sigmoid, tanh)
            && res.nextC[r][j] == CellValue(res.cache.f[r][j], prevC[r][j], res.cache.i[r][j], res.cache.g[r][j])
            && res.nextH[r][j] == HiddenValue(res.cache.o[r][j], res.nextC[r][j], tanh)
  {
    var gs := GateValues(PreActivation(x, prevH, wx, wh, b), |wh|, sigmoid, tanh);
    var res := StepForward(x, prevH, prevC, wx, wh, b, sigmoid, tanh);
    assert res.cache.i == gs.i && res.cache.f == gs.f && res.cache.o == gs.o && res.cache.g == gs.g;
    assert res.nextC == NextCell(gs, prevC, |wh|);
    assert res.nextH == NextHidden(gs.o, res.nextC, tanh);
    NextCellAt(gs, prevC, |wh|, r, j);
    NextHiddenAt(gs.o, res.nextC, tanh, r, j);
  }

  // ---------------------------------------------------------------------
  // lstm_step_backward: from `dnext_h, dnext_c` to the gate arguments

  /** `1 - a`, elementwise: the sigmoid's local derivative is `s * (1 - s)`. */
  function OneMinus(a: Mat): (r: Mat)
    ensures SameShape(r, a)
  {
    seq(|a|, n requires 0 <= n < |a| => seq(|a[n]|, j requires 0 <= j < |a[n]| => 1.0 - a[n][j]))
  }

  /** `1 - a**2`, elementwise: the tanh's local derivative written with its output. */
  function OneMinusSquare(a: Mat): (r: Mat)
    ensures SameShape(r, a)
  {
    seq(|a|, n requires 0 <= n < |a| => seq(|a[n]|, j requires 0 <= j < |a[n]| => 1.0 - a[n][j] * a[n][j]))
  }

  /** `alt_dnext_c = dnext_h * o * (1 - tanh(next_c)**2)`, the gradient reaching
      `next_c` through `next_h`. */
  function AltGrad(dnextH: Mat, o: Mat, tc: Mat): (r: Mat)
    requires SameShape(dnextH, o) && SameShape(o, tc)
    ensures SameShape(r, dnextH)
  {
    MatHadamard(MatHadamard(dnextH, o), OneMinusSquare(tc))
  }

  /** `d = dnext_c * m; d += alt * m`: a gradient reaching a factor `m` of
      `next_c` along both paths, through `next_c` directly and through `next_h`. */
  function TwoPaths(dnextC: Mat, alt: Mat, m: Mat): (r: Mat)
    requires SameShape(dnextC, alt) && SameShape(alt, m)
    ensures SameShape(r, dnextC)
  {
    MatAdd(MatHadamard(dnextC, m), MatHadamard(alt, m))
  }

  /** `dprev_c` and the gradients `di, df, do, dg` of the four gate values. */
  datatype CellGrads = CellGrads(dprevC: Mat, dGates: Gates)

  /** The cache has (N, H) gates and cell states. */
  predicate CellShaped(c: StepCache, n: nat, h: nat) {
    && IsMat(c.i, n, h) && IsMat(c.f, n, h) && IsMat(c.o, n, h) && IsMat(c.g, n, h)
    && IsMat(c.nextC, n, h) && IsMat(c.prevC, n, h)
  }

  /** `dprev_c`, `do`, `df`, `di`, `dg` with `tc = tanh(next_c)`. */
  function CellGradients(dnextH: Mat, dnextC: Mat, c: StepCache, tc: Mat, n: nat, h: nat): (r: CellGrads)
    requires CellShaped(c, n, h) && IsMat(dnextH, n, h) && IsMat(dnextC, n, h) && IsMat(tc, n, h)
    ensures IsMat(r.dprevC, n, h) && GatesShaped(r.dGates, n, h)
  {
    var alt := AltGrad(dnextH, c.o, tc);
    CellGrads(TwoPaths(dnextC, alt, c.f),
              Gates(TwoPaths(dnextC, alt, c.g), TwoPaths(dnextC, alt, c.prevC),
                    MatHadamard(dnextH, tc), TwoPaths(dnextC, alt, c.i)))
  }

  /** `da_i = di * i * (1 - i)`, `da_f`, `da_o` likewise, `da_g = dg * (1 - g**2)`. */
  function GateArgGrads(dGates: Gates, c: StepCache, n: nat, h: nat): (r: Gates)
    requires CellShaped(c, n, h) && GatesShaped(dGates, n, h)
    ensures GatesShaped(r, n, h)
  {
    Gates(MatHadamard(MatHadamard(dGates.i, c.i), OneMinus(c.i)),
          MatHadamard(MatHadamard(dGates.f, c.f), OneMinus(c.f)),
          MatHadamard(MatHadamard(dGates.o, c.o), OneMinus(c.o)),
          MatHadamard(dGates.g, OneMinusSquare(c.g)))
  }

  /** `lstm_step_backward(dnext_h, dnext_c, cache)`. */
  function StepBackward(dnextH: Mat, dnextC: Mat, c: StepCache, tanh: real -> real): (r: StepGrads)
    requires CacheShaped(c, |c.x|, |c.wx|, |c.wh|)
    requires IsMat(dnextH, |c.x|, |c.wh|) && IsMat(dnextC, |c.x|, |c.wh|)
    ensures IsMat(r.dx, |c.x|, |c.wx|) && IsMat(r.dprevH, |c.x|, |c.wh|) && IsMat(r.dprevC, |c.x|, |c.wh|)
    ensures IsMat(r.dWx, |c.wx|, 4 * |c.wh|) && IsMat(r.dWh, |c.wh|, 4 * |c.wh|) && |r.db| == 4 * |c.wh|
  {
    var n, d, h := |c.x|, |c.wx|, |c.wh|;
    var cg := CellGradients(dnextH, dnextC, c, MapMat(tanh, c.nextC), n, h);
    var da := HStack(GateArgGrads(cg.dGates, c, n, h), n, h);
    StepGrads(MatMul(da, Transpose(c.wx, 4 * h), d), MatMul(da, Transpose(c.wh, 4 * h), h), cg.dprevC,
              MatMul(Transpose(c.x, d), da, 4 * h), MatMul(Transpose(c.prevH, h), da, 4 * h),
              SumRows(da, 4 * h))
  }

  /** Each two-path gradient is `(dnext_c + alt_dnext_c)` times the factor:
      `dprev_c = (dnext_c + alt) * f`, `di = (dnext_c + alt) * g`,
      `df = (dnext_c + alt) * prev_c`, `dg = (dnext_c + alt) * i`. */
  lemma {:induction false} CellGradientsFactored(dnextH: Mat, dnextC: Mat, c: StepCache, tc: Mat, n: nat, h: nat)
    requires CellShaped(c, n, h) && IsMat(dnextH, n, h) && IsMat(dnextC, n, h) && IsMat(tc, n, h)
    ensures var total := MatAdd(dnextC, AltGrad(dnextH, c.o, tc));
            var cg := CellGradients(dnextH, dnextC, c, tc, n, h);
            && cg.dprevC == MatHadamard(total, c.f)
            && cg.dGates.i == MatHadamard(total, c.g)
            && cg.dGates.f == MatHadamard(total, c.prevC)
            && cg.dGates.o == MatHadamard(dnextH, tc)
            && cg.dGates.g == MatHadamard(total, c.i)
  {
    var alt := AltGrad(dnextH, c.o, tc);
    HadamardDistrib(dnextC, alt, c.f);
    HadamardDistrib(dnextC, alt, c.g);
    HadamardDistrib(dnextC, alt, c.prevC);
    HadamardDistrib(dnextC, alt, c.i);
  }

  // ---------------------------------------------------------------------
  // The gate and cell part of the backward pass is the adjoint of the
  // first-order change of `next_c = f * prev_c + i * g`, `next_h = o * tanh(next_c)`

  /** One entry of `alt_dnext_c`. */
  function AltValue(dh: real, o: real, tc: real): real {
    dh * o * (1.0 - tc * tc)
  }

  /** One entry of `dnext_c * m + alt * m`. */
  function TwoPathValue(dc: real, alt: real, m: real): real {
    dc * m + alt * m
  }

  /** One entry of `d * s * (1 - s)`, back through a sigmoid whose output is `s`. */
  function SigmoidBack(d: real, s: real): real {
    d * s * (1.0 - s)
  }

  /** One entry of `d * (1 - t**2)`, back through a tanh whose output is `t`. */
  function TanhBack(d: real, t: real): real {
    d * (1.0 - t * t)
  }

  /** The first-order change of a sigmoid's output `s` when its argument changes by `da`. */
  function SigmoidTangent(s: real, da: real): real {
    s * (1.0 - s) * da
  }

  /** The first-order change of a tanh's output `t` when its argument changes by `da`. */
  function TanhTangent(t: real, da: real): real {
    (1.0 - t * t) * da
  }

  /** The first-order change of `f * prev_c + i * g` (product rule). */
  function CellTangentValue(i: real, f: real, g: real, prevC: real,
                            di: real, df: real, dg: real, dprevC: real): real {
    df * prevC + f * dprevC + di * g + i * dg
  }

  /** The first-order change of `o * tanh(c)` where `tc = tanh(c)`. */
  function HiddenTangentValue(o: real, tc: real, dO: real, dc: real): real {
    dO * tc + o * TanhTangent(tc, dc)
  }

  datatype CellChange = CellChange(dNextH: Mat, dNextC: Mat)

  /** The first-order change of `next_h` and `next_c` when the gate arguments
      change by `dA` and `prev_c` by `dPrevC`, with the gate values, `prev_c`
      and `tc = tanh(next_c)` read from the forward pass. */
  function CellTangent(c: StepCache, tc: Mat, dA: Gates, dPrevC: Mat, n: nat, h: nat): (r: CellChange)
    requires CellShaped(c, n, h) && IsMat(tc, n, h) && GatesShaped(dA, n, h) && IsMat(dPrevC, n, h)
    ensures IsMat(r.dNextH, n, h) && IsMat(r.dNextC, n, h)
  {
    var dC := seq(n, r requires 0 <= r < n => seq(h, j requires 0 <= j < h =>
                CellTangentValue(c.i[r][j], c.f[r][j], c.g[r][j], c.prevC[r][j],
                                 SigmoidTangent(c.i[r][j], dA.i[r][j]), SigmoidTangent(c.f[r][j], dA.f[r][j]),
                                 TanhTangent(c.g[r][j], dA.g[r][j]), dPrevC[r][j])));
    var dH := seq(n, r requires 0 <= r < n => seq(h, j requires 0 <= j < h =>
                HiddenTangentValue(c.o[r][j], tc[r][j], SigmoidTangent(c.o[r][j], dA.o[r][j]), dC[r][j])));
    CellChange(dH, dC)
  }

  /** The backward pass entry by entry. */
  lemma {:induction false} CellGradientsAt(dnextH: Mat, dnextC: Mat, c: StepCache, tc: Mat, n: nat, h: nat, r: nat, j: nat)
    requires CellShaped(c, n, h) && IsMat(dnextH, n, h) && IsMat(dnextC, n, h) && IsMat(tc, n, h)
    requires r < n && j < h
    ensures var cg := CellGradients(dnextH, dnextC, c, tc, n, h);
            var alt := AltValue(dnextH[r][j], c.o[r][j], tc[r][j]);
            && cg.dprevC[r][j] == TwoPathValue(dnextC[r][j], alt, c.f[r][j])
            && cg.dGates.i[r][j] == TwoPathValue(dnextC[r][j], alt, c.g[r][j])
            && cg.dGates.f[r][j] == TwoPathValue(dnextC[r][j], alt, c.prevC[r][j])
            && cg.dGates.o[r][j] == dnextH[r][j] * tc[r][j]
            && cg.dGates.g[r][j] == TwoPathValue(dnextC[r][j], alt, c.i[r][j])
  {
    var alt := AltGrad(dnextH, c.o, tc);
    assert alt[r][j] == AltValue(dnextH[r][j], c.o[r][j], tc[r][j]);
  }

  lemma {:induction false} GateArgGradsAt(dGates: Gates, c: StepCache, n: nat, h: nat, r: nat, j: nat)
    requires CellShaped(c, n, h) && GatesShaped(dGates, n, h) && r < n && j < h
    ensures var ga := GateArgGrads(dGates, c, n, h);
            && ga.i[r][j] == SigmoidBack(dGates.i[r][j], c.i[r][j])
            && ga.f[r][j] == SigmoidBack(dGates.f[r][j], c.f[r][j])
            && ga.o[r][j] == SigmoidBack(dGates.o[r][j], c.o[r][j])
            && ga.g[r][j] == TanhBack(dGates.g[r][j], c.g[r][j])
  {
  }

  /** The identity behind the cell's backward pass, for one entry: pairing the
      changes of `next_h, next_c` with `dnext_h, dnext_c` equals pairing the
      changes of the gate arguments and of `prev_c` with `da` and `dprev_c`. */
  lemma {:induction false} CellEntryAdjoint(i: real, f: real, o: real, g: real, prevC: real, tc: real,
                                            dai: real, daf: real, dao: real, dag: real, dpc: real,
                                            dh: real, dc: real)
    ensures var alt := AltValue(dh, o, tc);
            var dC := CellTangentValue(i, f, g, prevC, SigmoidTangent(i, dai), SigmoidTangent(f, daf),
                                       TanhTangent(g, dag), dpc);
            PairSum(HiddenTangentValue(o, tc, SigmoidTangent(o, dao), dC), dh, dC, dc)
            == FiveSum(dai, SigmoidBack(TwoPathValue(dc, alt, g), i), daf, SigmoidBack(TwoPathValue(dc, alt, prevC), f),
                       dao, SigmoidBack(dh * tc, o), dag, TanhBack(TwoPathValue(dc, alt, i), g),
                       dpc, TwoPathValue(dc, alt, f))
  {
    var alt := AltValue(dh, o, tc);
    var di, df, dg := SigmoidTangent(i, dai), SigmoidTangent(f, daf), TanhTangent(g, dag);
    var dC := CellTangentValue(i, f, g, prevC, di, df, dg, dpc);
    HiddenSide(o, tc, SigmoidTangent(o, dao), dC, dh, dc);
    CellSide(i, f, g, prevC, di, df, dg, dpc, dc + alt);
    SigmoidPath(dai, i, g, dc, alt);
    SigmoidPath(daf, f, prevC, dc, alt);
    SigmoidPath(dao, o, tc, dh, 0.0);
    TanhPath(dag, g, i, dc, alt);
    assert dpc * TwoPathValue(dc, alt, f) == f * dpc * (dc + alt);
  }

  lemma HiddenSide(o: real, tc: real, dO: real, dC: real, dh: real, dc: real)
    ensures HiddenTangentValue(o, tc, dO, dC) * dh + dC * dc == dO * tc * dh + dC * (dc + AltValue(dh, o, tc))
  {
    assert HiddenTangentValue(o, tc, dO, dC) * dh == dO * tc * dh + o * TanhTangent(tc, dC) * dh;
    assert o * TanhTangent(tc, dC) * dh == dC * AltValue(dh, o, tc);
  }

  lemma CellSide(i: real, f: real, g: real, prevC: real, di: real, df: real, dg: real, dpc: real, total: real)
    ensures CellTangentValue(i, f, g, prevC, di, df, dg, dpc) * total
         == di * g * total + df * prevC * total + dg * i * total + f * dpc * total
  {
  }

  lemma SigmoidPath(da: real, s: real, m: real, dc: real, alt: real)
    ensures da * SigmoidBack(TwoPathValue(dc, alt, m), s) == SigmoidTangent(s, da) * m * (dc + alt)
  {
    assert TwoPathValue(dc, alt, m) == m * (dc + alt);
  }

  lemma TanhPath(da: real, t: real, m: real, dc: real, alt: real)
    ensures da * TanhBack(TwoPathValue(dc, alt, m), t) == TanhTangent(t, da) * m * (dc + alt)
  {
    assert TwoPathValue(dc, alt, m) == m * (dc + alt);
  }

  /** The first-order change of the cell, entry by entry. */
  lemma {:induction false} CellTangentAt(c: StepCache, tc: Mat, dA: Gates, dPrevC: Mat, n: nat, h: nat, r: nat, j: nat)
    requires CellShaped(c, n, h) && IsMat(tc, n, h) && GatesShaped(dA, n, h) && IsMat(dPrevC, n, h)
    requires r < n && j < h
    ensures var ch := CellTangent(c, tc, dA, dPrevC, n, h);
            var dC := CellTangentValue(c.i[r][j], c.f[r][j], c.g[r][j], c.prevC[r][j],
                                       SigmoidTangent(c.i[r][j], dA.i[r][j]), SigmoidTangent(c.f[r][j], dA.f[r][j]),
                                       TanhTangent(c.g[r][j], dA.g[r][j]), dPrevC[r][j]);
            && ch.dNextC[r][j] == dC
            && ch.dNextH[r][j] == HiddenTangentValue(c.o[r][j], tc[r][j], SigmoidTangent(c.o[r][j], dA.o[r][j]), dC)
  {
  }

  lemma {:induction false} CellProductsAgreeAt(dnextH: Mat, dnextC: Mat, c: StepCache, tc: Mat, dA: Gates,
                                               dPrevC: Mat, n: nat, h: nat, r: nat, j: nat)
    requires CellShaped(c, n, h) && IsMat(dnextH, n, h) && IsMat(dnextC, n, h) && IsMat(tc, n, h)
    requires GatesShaped(dA, n, h) && IsMat(dPrevC, n, h) && r < n && j < h
    ensures var ch := CellTangent(c, tc, dA, dPrevC, n, h);
            var cg := CellGradients(dnextH, dnextC, c, tc, n, h);
            var ga := GateArgGrads(cg.dGates, c, n, h);
            MatAdd(MatHadamard(ch.dNextH, dnextH), MatHadamard(ch.dNextC, dnextC))[r][j]
            == MatAdd(MatAdd(MatAdd(MatAdd(MatHadamard(dA.i, ga.i), MatHadamard(dA.f, ga.f)),
                                    MatHadamard(dA.o, ga.o)), MatHadamard(dA.g, ga.g)),
                      MatHadamard(dPrevC, cg.dprevC))[r][j]
  {
    var ch := CellTangent(c, tc, dA, dPrevC, n, h);
    var cg := CellGradients(dnextH, dnextC, c, tc, n, h);
    var ga := GateArgGrads(cg.dGates, c, n, h);
    HadamardPairAt(ch.dNextH, dnextH, ch.dNextC, dnextC, r, j);
    HadamardFiveAt(dA.i, ga.i, dA.f, ga.f, dA.o, ga.o, dA.g, ga.g, dPrevC, cg.dprevC, r, j);
    CellTangentAt(c, tc, dA, dPrevC, n, h, r, j);
    CellGradientsAt(dnextH, dnextC, c, tc, n, h, r, j);
    GateArgGradsAt(cg.dGates, c, n, h, r, j);
    CellEntryAdjoint(c.i[r][j], c.f[r][j], c.o[r][j], c.g[r][j], c.prevC[r][j], tc[r][j],
                     dA.i[r][j], dA.f[r][j], dA.o[r][j], dA.g[r][j], dPrevC[r][j],
                     dnextH[r][j], dnextC[r][j]);
  }

  lemma {:induction false} CellProductsAgree(dnextH: Mat, dnextC: Mat, c: StepCache, tc: Mat, dA: Gates,
                                             dPrevC: Mat, n: nat, h: nat)
    requires CellShaped(c, n, h) && IsMat(dnextH, n, h) && IsMat(dnextC, n, h) && IsMat(tc, n, h)
    requires GatesShaped(dA, n, h) && IsMat(dPrevC, n, h)
    ensures var ch := CellTangent(c, tc, dA, dPrevC, n, h);
            var cg := CellGradients(dnextH, dnextC, c, tc, n, h);
            var ga := GateArgGrads(cg.dGates, c, n, h);
            MatAdd(MatHadamard(ch.dNextH, dnextH), MatHadamard(ch.dNextC, dnextC))
            == MatAdd(MatAdd(MatAdd(MatAdd(MatHadamard(dA.i, ga.i), MatHadamard(dA.f, ga.f)),
                                    MatHadamard(dA.o, ga.o)), MatHadamard(dA.g, ga.g)),
                      MatHadamard(dPrevC, cg.dprevC))
  {
    var ch := CellTangent(c, tc, dA, dPrevC, n, h);
    var cg := CellGradients(dnextH, dnextC, c, tc, n, h);
    var ga := GateArgGrads(cg.dGates, c, n, h);
    var left := MatAdd(MatHadamard(ch.dNextH, dnextH), MatHadamard(ch.dNextC, dnextC));
    var right := MatAdd(MatAdd(MatAdd(MatAdd(MatHadamard(dA.i, ga.i), MatHadamard(dA.f, ga.f)),
                                      MatHadamard(dA.o, ga.o)), MatHadamard(dA.g, ga.g)),
                        MatHadamard(dPrevC, cg.dprevC));
    forall r | 0 <= r < n
      ensures left[r] == right[r]
    {
      forall j | 0 <= j < h
        ensures left[r][j] == right[r][j]
      {
        CellProductsAgreeAt(dnextH, dnextC, c, tc, dA, dPrevC, n, h, r, j);
      }
    }
  }

  /** The gate and cell part of `lstm_step_backward` is the adjoint of the
      first-order change of the cell: for every change `dA` of the gate
      arguments and `dPrevC` of `prev_c`,
      `<dnext_h', dnext_h> + <dnext_c', dnext_c> == <dA, da> + <dPrevC, dprev_c>`,
      gate by gate. */
  lemma {:induction false} CellBackwardIsAdjoint(dnextH: Mat, dnextC: Mat, c: StepCache, tc: Mat, dA: Gates,
                                                 dPrevC: Mat, n: nat, h: nat)
    requires CellShaped(c, n, h) && IsMat(dnextH, n, h) && IsMat(dnextC, n, h) && IsMat(tc, n, h)
    requires GatesShaped(dA, n, h) && IsMat(dPrevC, n, h)
    ensures var ch := CellTangent(c, tc, dA, dPrevC, n, h);
            var cg := CellGradients(dnextH, dnextC, c, tc, n, h);
            var ga := GateArgGrads(cg.dGates, c, n, h);
            Inner(ch.dNextH, dnextH) + Inner(ch.dNextC, dnextC)
            == Inner(dA.i, ga.i) + Inner(dA.f, ga.f) + Inner(dA.o, ga.o) + Inner(dA.g, ga.g)
             + Inner(dPrevC, cg.dprevC)
  {
    var ch := CellTangent(c, tc, dA, dPrevC, n, h);
    var cg := CellGradients(dnextH, dnextC, c, tc, n, h);
    var ga := GateArgGrads(cg.dGates, c, n, h);
    CellProductsAgree(dnextH, dnextC, c, tc, dA, dPrevC, n, h);
    InnerPairIsMatSum(ch.dNextH, dnextH, ch.dNextC, dnextC);
    InnerFiveIsMatSum(dA.i, ga.i, dA.f, ga.f, dA.o, ga.o, dA.g, ga.g, dPrevC, cg.dprevC);
  }

  /** `lstm_step_backward` is the adjoint of the first-order change of
      `lstm_step_forward`: when `x, prev_h, prev_c, Wx, Wh, b` change by
      `dX, dH, dC, dWx, dWh, dB`, the gate arguments change by `dA`, and the
      resulting change of `next_h, next_c`, paired with `dnext_h, dnext_c`,
      equals the pairing of the input changes with the returned gradients. */
  lemma {:induction false} StepBackwardIsAdjoint(dnextH: Mat, dnextC: Mat, c: StepCache, tanh: real -> real,
                                                 dX: Mat, dH: Mat, dC: Mat, dWx: Mat, dWh: Mat, dB: Vec)
    requires CacheShaped(c, |c.x|, |c.wx|, |c.wh|)
    requires IsMat(dnextH, |c.x|, |c.wh|) && IsMat(dnextC, |c.x|, |c.wh|)
    requires IsMat(dX, |c.x|, |c.wx|) && IsMat(dH, |c.x|, |c.wh|) && IsMat(dC, |c.x|, |c.wh|)
    requires IsMat(dWx, |c.wx|, 4 * |c.wh|) && IsMat(dWh, |c.wh|, 4 * |c.wh|) && |dB| == 4 * |c.wh|
    ensures AffineShapes(c.x, c.prevH, c.wx, c.wh, 4 * |c.wh|)
    ensures var n, h := |c.x|, |c.wh|;
            var dA := AffineTangent(c.x, c.prevH, c.wx, c.wh, 4 * h, dX, dH, dWx, dWh, dB);
            var ch := CellTangent(c, MapMat(tanh, c.nextC), Split(dA, h), dC, n, h);
            var gr := StepBackward(dnextH, dnextC, c, tanh);
            Inner(ch.dNextH, dnextH) + Inner(ch.dNextC, dnextC)
            == Inner(dX, gr.dx) + Inner(dH, gr.dprevH) + Inner(dC, gr.dprevC)
             + Inner(dWx, gr.dWx) + Inner(dWh, gr.dWh) + Dot(dB, gr.db)
  {
    var n, h := |c.x|, |c.wh|;
    var tc := MapMat(tanh, c.nextC);
    var dA := AffineTangent(c.x, c.prevH, c.wx, c.wh, 4 * h, dX, dH, dWx, dWh, dB);
    var cg := CellGradients(dnextH, dnextC, c, tc, n, h);
    var ga := GateArgGrads(cg.dGates, c, n, h);
    CellBackwardIsAdjoint(dnextH, dnextC, c, tc, Split(dA, h), dC, n, h);
    InnerHStack(Split(dA, h), ga, n, h);
    HStackSplit(dA, h);
    AffineAdjoint(c.x, c.prevH, c.wx, c.wh, 4 * h, dX, dH, dWx, dWh, dB, HStack(ga, n, h));
  }

  // ---------------------------------------------------------------------
  // lstm_forward

  /** The hidden and cell state between two steps. */
  datatype State = State(h: Mat, c: Mat)

  /** `x` is (N, T, D), `h0` is (N, H), `Wx` is (D, 4H), `Wh` is (H, 4H), `b` is (4H,). */
  predicate SequenceShapes(x: Tensor3, h0: Mat, wx: Mat, wh: Mat, b: Vec, t: nat) {
    && IsTensor3(x, |x|, t, |wx|) && IsMat(h0, |x|, |wh|)
    && IsMat(wx, |wx|, 4 * |wh|) && IsMat(wh, |wh|, 4 * |wh|) && |b| == 4 * |wh|
  }

  /** The results have (N, H) hidden and cell states. */
  predicate ResultsShaped(rs: seq<StepResult>, n: nat, h: nat) {
    forall j :: 0 <= j < |rs| ==> IsMat(rs[j].nextH, n, h) && IsMat(rs[j].nextC, n, h)
  }

  /** The state step `s` starts from: `h0` and a zero cell state before the
      first step, the outputs of step `s - 1` after it. */
  function Before(rs: seq<StepResult>, h0: Mat, n: nat, h: nat, s: nat): (st: State)
    requires IsMat(h0, n, h) && ResultsShaped(rs, n, h) && s <= |rs|
    ensures IsMat(st.h, n, h) && IsMat(st.c, n, h)
  {
    if s == 0 then State(h0, ZeroMat(n, h)) else State(rs[s - 1].nextH, rs[s - 1].nextC)
  }

  /** The results of the first `k` steps, step `0` first. */
  function Run(x: Tensor3, h0: Mat, wx: Mat, wh: Mat, b: Vec, t: nat,
               sigmoid: real -> real, tanh: real -> real, k: nat): (rs: seq<StepResult>)
    requires SequenceShapes(x, h0, wx, wh, b, t) && k <= t
    ensures |rs| == k && ResultsShaped(rs, |x|, |wh|)
    decreases k, 0
  {
    if k == 0 then []
    else Run(x, h0, wx, wh, b, t, sigmoid, tanh, k - 1) + [ForwardStep(x, h0, wx, wh, b, t, sigmoid, tanh, k - 1)]
  }

  /** Step `s` reads `x[:, s, :]` and the state the steps before it left. */
  function ForwardStep(x: Tensor3, h0: Mat, wx: Mat, wh: Mat, b: Vec, t: nat,
                       sigmoid: real -> real, tanh: real -> real, s: nat): (r: StepResult)
    requires SequenceShapes(x, h0, wx, wh, b, t) && s < t
    ensures IsMat(r.nextH, |x|, |wh|) && IsMat(r.nextC, |x|, |wh|)
    decreases s, 1
  {
    var st := Before(Run(x, h0, wx, wh, b, t, sigmoid, tanh, s), h0, |x|, |wh|, s);
    TimeSliceShape(x, |x|, t, |wx|, s);
    StepForward(TimeSlice(x, s), st.h, st.c, wx, wh, b, sigmoid, tanh)
  }

  /** Running fewer steps gives a prefix of the same results. */
  lemma {:induction false} RunPrefix(x: Tensor3, h0: Mat, wx: Mat, wh: Mat, b: Vec, t: nat,
                                     sigmoid: real -> real, tanh: real -> real, k: nat, j: nat)
    requires SequenceShapes(x, h0, wx, wh, b, t) && j <= k <= t
    ensures Run(x, h0, wx, wh, b, t, sigmoid, tanh, k)[..j] == Run(x, h0, wx, wh, b, t, sigmoid, tanh, j)
    decreases k
  {
    if j < k {
      RunPrefix(x, h0, wx, wh, b, t, sigmoid, tanh, k - 1, j);
      var rs := Run(x, h0, wx, wh, b, t, sigmoid, tanh, k);
      assert rs[..k - 1] == Run(x, h0, wx, wh, b, t, sigmoid, tanh, k - 1);
      assert rs[..j] == rs[..k - 1][..j];
    }
  }

  /** Step `s` of any longer run is the step applied to `x[:, s, :]` and the
      state before it. */
  lemma {:induction false} RunStep(x: Tensor3, h0: Mat, wx: Mat, wh: Mat, b: Vec, t: nat,
                                   sigmoid: real -> real, tanh: real -> real, k: nat, s: nat)
    requires SequenceShapes(x, h0, wx, wh, b, t) && s < k <= t
    ensures var rs := Run(x, h0, wx, wh, b, t, sigmoid, tanh, k);
            var st := Before(rs, h0, |x|, |wh|, s);
            && StepShapes(TimeSlice(x, s), st.h, st.c, wx, wh, b)
            && rs[s] == StepForward(TimeSlice(x, s), st.h, st.c, wx, wh, b, sigmoid, tanh)
  {
    TimeSliceShape(x, |x|, t, |wx|, s);
    RunPrefix(x, h0, wx, wh, b, t, sigmoid, tanh, k, s + 1);
    RunPrefix(x, h0, wx, wh, b, t, sigmoid, tanh, k, s);
    var rs := Run(x, h0, wx, wh, b, t, sigmoid, tanh, k);
    assert rs[s] == Run(x, h0, wx, wh, b, t, sigmoid, tanh, s + 1)[s];
    assert Before(rs, h0, |x|, |wh|, s) == Before(rs[..s], h0, |x|, |wh|, s);
  }

  /** `lstm_forward(x, h0, Wx, Wh, b)`: starts from `h0` and a zero cell
      state, runs the step once per time step, writes each new hidden state
      into `h[:, t, :]` and appends each step's cache; the cell state is not
      returned. */
  method Forward(x: Tensor3, h0: Mat, wx: Mat, wh: Mat, b: Vec, t: nat, sigmoid: real -> real, tanh: real -> real)
    returns (h: Tensor3, cache: seq<StepCache>)
    requires SequenceShapes(x, h0, wx, wh, b, t)
    ensures IsTensor3(h, |x|, t, |wh|) && |cache| == t
    ensures var rs := Run(x, h0, wx, wh, b, t, sigmoid, tanh, t);
            forall s :: 0 <= s < t ==> TimeSlice(h, s) == rs[s].nextH && cache[s] == rs[s].cache
  {
    var n, hh := |x|, |wh|;
    h := seq(n, _ => ZeroMat(t, hh));
    cache := [];
    var nextH, nextC := h0, ZeroMat(n, hh);
    ghost var rs: seq<StepResult> := [];
    var s := 0;
    while s < t
      invariant 0 <= s <= t
      invariant rs == Run(x, h0, wx, wh, b, t, sigmoid, tanh, s)
      invariant State(nextH, nextC) == Before(rs, h0, n, hh, s)
      invariant IsTensor3(h, n, t, hh) && |cache| == s
      invariant forall k :: 0 <= k < s ==> TimeSlice(h, k) == rs[k].nextH && cache[k] == rs[k].cache
    {
      TimeSliceShape(x, n, t, |wx|, s);
      var step := StepForward(TimeSlice(x, s), nextH, nextC, wx, wh, b, sigmoid, tanh);
      assert step == ForwardStep(x, h0, wx, wh, b, t, sigmoid, tanh, s);
      nextH, nextC := step.nextH, step.nextC;
      rs := rs + [step];
      SetTimeSliceEffect(h, s, nextH, n, t, hh);
      h := SetTimeSlice(h, s, nextH);
      cache := cache + [step.cache];
      s := s + 1;
    }
  }

  /** Consecutive caches are chained: step 0 starts from `h0` and a zero cell
      state, and step `s + 1` starts from the hidden and cell states step `s`
      produced. */
  lemma {:induction false} CachesChain(x: Tensor3, h0: Mat, wx: Mat, wh: Mat, b: Vec, t: nat,
                                       sigmoid: real -> real, tanh: real -> real, s: nat)
    requires SequenceShapes(x, h0, wx, wh, b, t) && s < t
    ensures var rs := Run(x, h0, wx, wh, b, t, sigmoid, tanh, t);
            && rs[s].cache.x == TimeSlice(x, s)
            && (s == 0 ==> rs[s].cache.prevH == h0 && rs[s].cache.prevC == ZeroMat(|x|, |wh|))
            && (s > 0 ==> rs[s].cache.prevH == rs[s - 1].nextH && rs[s].cache.prevC == rs[s - 1].cache.nextC)
  {
    RunStep(x, h0, wx, wh, b, t, sigmoid, tanh, t, s);
    if s > 0 {
      RunStep(x, h0, wx, wh, b, t, sigmoid, tanh, t, s - 1);
    }
  }

  // ---------------------------------------------------------------------
  // lstm_backward

  predicate CachesShaped(cache: seq<StepCache>, n: nat, d: nat, h: nat) {
    forall s :: 0 <= s < |cache| ==> CacheShaped(cache[s], n, d, h)
  }

  /** `dh` is (N, T, H) for the `T >= 1` caches of one forward run; every cache
      has the shapes of the first. */
  predicate BackwardShapes(dh: Tensor3, cache: seq<StepCache>) {
    && |cache| > 0
    && CachesShaped(cache, |dh|, |cache[0].wx|, |cache[0].wh|)
    && IsTensor3(dh, |dh|, |cache|, |cache[0].wh|)
  }

  /** `D = cache[0][9].shape[1]`, the width of the cached `x`; with no rows
      to read it from, the row count of `Wx`, which is the same `D`. */
  function InputWidth(dh: Tensor3, cache: seq<StepCache>): (d: nat)
    requires BackwardShapes(dh, cache)
    ensures d == |cache[0].wx|
    ensures forall s, i :: 0 <= s < |cache| && 0 <= i < |dh| ==> |cache[s].x[i]| == d
  {
    if |dh| > 0 then |cache[0].x[0]| else |cache[0].wx|
  }

  /** Step `k` of the reverse sweep: it receives `dh[:, k, :] + dprev_h` and
      `dprev_c`, the carries from step `k + 1`. */
  function StepAt(dh: Tensor3, cache: seq<StepCache>, tanh: real -> real, k: nat): (g: StepGrads)
    requires BackwardShapes(dh, cache) && k < |cache|
    ensures var d, h := |cache[0].wx|, |cache[0].wh|;
            && IsMat(g.dx, |dh|, d) && IsMat(g.dprevH, |dh|, h) && IsMat(g.dprevC, |dh|, h)
            && IsMat(g.dWx, d, 4 * h) && IsMat(g.dWh, h, 4 * h) && |g.db| == 4 * h
    decreases |cache| - k, 0
  {
    TimeSliceShape(dh, |dh|, |cache|, |cache[0].wh|, k);
    StepBackward(MatAdd(TimeSlice(dh, k), CarryH(dh, cache, tanh, k + 1)), CarryC(dh, cache, tanh, k + 1),
                 cache[k], tanh)
  }

  /** `dprev_h` once steps `T - 1` down to `k` have run: zero before any step. */
  function CarryH(dh: Tensor3, cache: seq<StepCache>, tanh: real -> real, k: nat): (r: Mat)
    requires BackwardShapes(dh, cache) && k <= |cache|
    ensures IsMat(r, |dh|, |cache[0].wh|)
    decreases |cache| - k, 1
  {
    if k == |cache| then ZeroMat(|dh|, |cache[0].wh|) else StepAt(dh, cache, tanh, k).dprevH
  }

  /** `dprev_c` once steps `T - 1` down to `k` have run: zero before any step. */
  function CarryC(dh: Tensor3, cache: seq<StepCache>, tanh: real -> real, k: nat): (r: Mat)
    requires BackwardShapes(dh, cache) && k <= |cache|
    ensures IsMat(r, |dh|, |cache[0].wh|)
    decreases |cache| - k, 1
  {
    if k == |cache| then ZeroMat(|dh|, |cache[0].wh|) else StepAt(dh, cache, tanh, k).dprevC
  }

  /** The parameter gradients accumulated over steps `T - 1` down to `k`,
      in the order the loop adds them. */
  function ParamsFrom(dh: Tensor3, cache: seq<StepCache>, tanh: real -> real, k: nat): (g: StepGrads)
    requires BackwardShapes(dh, cache) && k <= |cache|
    ensures var d, h := |cache[0].wx|, |cache[0].wh|;
            IsMat(g.dWx, d, 4 * h) && IsMat(g.dWh, h, 4 * h) && |g.db| == 4 * h
    decreases |cache| - k
  {
    var d, h := |cache[0].wx|, |cache[0].wh|;
    if k == |cache| then StepGrads([], [], [], ZeroMat(d, 4 * h), ZeroMat(h, 4 * h), Zeros(4 * h))
    else AddParams(ParamsFrom(dh, cache, tanh, k + 1), StepAt(dh, cache, tanh, k), d, h)
  }

  /** `dWx += dWx_t; dWh += dWh_t; db += db_t`: the totals with one step's
      parameter gradients added, each entry the sum of the two. */
  function AddParams(total: StepGrads, step: StepGrads, d: nat, h: nat): (g: StepGrads)
    requires IsMat(total.dWx, d, 4 * h) && IsMat(total.dWh, h, 4 * h) && |total.db| == 4 * h
    requires IsMat(step.dWx, d, 4 * h) && IsMat(step.dWh, h, 4 * h) && |step.db| == 4 * h
    ensures IsMat(g.dWx, d, 4 * h) && IsMat(g.dWh, h, 4 * h) && |g.db| == 4 * h
    ensures forall r, j :: 0 <= r < d && 0 <= j < 4 * h ==> g.dWx[r][j] == total.dWx[r][j] + step.dWx[r][j]
    ensures forall r, j :: 0 <= r < h && 0 <= j < 4 * h ==> g.dWh[r][j] == total.dWh[r][j] + step.dWh[r][j]
    ensures forall j :: 0 <= j < 4 * h ==> g.db[j] == total.db[j] + step.db[j]
  {
    StepGrads([], [], [], MatAdd(total.dWx, step.dWx), MatAdd(total.dWh, step.dWh), VecAdd(total.db, step.db))
  }

  /** What the reverse sweep holds between two steps: the carries
      `dprev_h, dprev_c`, the (N, T, D) `dx` with its slices from the steps
      run so far, and the parameter gradient totals. */
  predicate SweptFrom(dh: Tensor3, cache: seq<StepCache>, tanh: real -> real, s: nat,
                      dx: Tensor3, dprevH: Mat, dprevC: Mat, dWx: Mat, dWh: Mat, db: Vec)
    requires BackwardShapes(dh, cache) && s <= |cache|
  {
    && dprevH == CarryH(dh, cache, tanh, s) && dprevC == CarryC(dh, cache, tanh, s)
    && dWx == ParamsFrom(dh, cache, tanh, s).dWx
    && dWh == ParamsFrom(dh, cache, tanh, s).dWh
    && db == ParamsFrom(dh, cache, tanh, s).db
    && IsTensor3(dx, |dh|, |cache|, |cache[0].wx|)
    && forall k :: s <= k < |cache| ==> TimeSlice(dx, k) == StepAt(dh, cache, tanh, k).dx
  }

  /** Step `k` of the reverse sweep is `lstm_step_backward` on
      `dh[:, k, :] + dprev_h` and `dprev_c`. */
  lemma {:induction false} SweepStep(dh: Tensor3, cache: seq<StepCache>, tanh: real -> real, k: nat)
    requires BackwardShapes(dh, cache) && k < |cache|
    ensures IsMat(TimeSlice(dh, k), |dh|, |cache[0].wh|)
    ensures StepAt(dh, cache, tanh, k)
         == StepBackward(MatAdd(TimeSlice(dh, k), CarryH(dh, cache, tanh, k + 1)), CarryC(dh, cache, tanh, k + 1),
                         cache[k], tanh)
  {
    TimeSliceShape(dh, |dh|, |cache|, |cache[0].wh|, k);
  }

  /** After step `k` the carries are its `dprev_h, dprev_c` and its parameter
      gradients are added to the totals. */
  lemma {:induction false} SweepAccumulate(dh: Tensor3, cache: seq<StepCache>, tanh: real -> real, k: nat)
    requires BackwardShapes(dh, cache) && k < |cache|
    ensures CarryH(dh, cache, tanh, k) == StepAt(dh, cache, tanh, k).dprevH
    ensures CarryC(dh, cache, tanh, k) == StepAt(dh, cache, tanh, k).dprevC
    ensures var rest, step := ParamsFrom(dh, cache, tanh, k + 1), StepAt(dh, cache, tanh, k);
            && ParamsFrom(dh, cache, tanh, k).dWx == MatAdd(rest.dWx, step.dWx)
            && ParamsFrom(dh, cache, tanh, k).dWh == MatAdd(rest.dWh, step.dWh)
            && ParamsFrom(dh, cache, tanh, k).db == VecAdd(rest.db, step.db)
  {
  }

  /** One pass of the loop body of `lstm_backward` at time `s`: the step on
      `dh[:, s, :] + dprev_h` and `dprev_c`, its `dx` written to
      `dx[:, s, :]`, its parameter gradients added to the totals. */
  method ReverseStep(dh: Tensor3, cache: seq<StepCache>, tanh: real -> real, s: nat,
                     dx: Tensor3, dprevH: Mat, dprevC: Mat, dWx: Mat, dWh: Mat, db: Vec)
    returns (dx': Tensor3, dprevH': Mat, dprevC': Mat, dWx': Mat, dWh': Mat, db': Vec)
    requires BackwardShapes(dh, cache) && s < |cache|
    requires SweptFrom(dh, cache, tanh, s + 1, dx, dprevH, dprevC, dWx, dWh, db)
    ensures SweptFrom(dh, cache, tanh, s, dx', dprevH', dprevC', dWx', dWh', db')
  {
    var n, t, d, h := |dh|, |cache|, |cache[0].wx|, |cache[0].wh|;
    SweepStep(dh, cache, tanh, s);
    SweepAccumulate(dh, cache, tanh, s);
    var totalDh := MatAdd(TimeSlice(dh, s), dprevH);
    var step := StepBackward(totalDh, dprevC, cache[s], tanh);
    dprevH', dprevC' := step.dprevH, step.dprevC;
    SetTimeSliceEffect(dx, s, step.dx, n, t, d);
    dx' := SetTimeSlice(dx, s, step.dx);
    dWx' := MatAdd(dWx, step.dWx);
    dWh' := MatAdd(dWh, step.dWh);
    db' := VecAdd(db, step.db);
  }

  /** `lstm_backward(dh, cache)`: walks `t` from `T - 1` down to `0`, feeding
      each step `dh[:, t, :] + dprev_h` and `dprev_c`, storing its `dx` in
      `dx[:, t, :]` and adding its parameter gradients to the totals. */
  method Backward(dh: Tensor3, cache: seq<StepCache>, tanh: real -> real)
    returns (dx: Tensor3, dh0: Mat, dWx: Mat, dWh: Mat, db: Vec)
    requires BackwardShapes(dh, cache)
    ensures IsTensor3(dx, |dh|, |cache|, InputWidth(dh, cache))
    ensures forall k :: 0 <= k < |cache| ==> TimeSlice(dx, k) == StepAt(dh, cache, tanh, k).dx
    ensures dh0 == CarryH(dh, cache, tanh, 0)
    ensures dWx == ParamsFrom(dh, cache, tanh, 0).dWx
    ensures dWh == ParamsFrom(dh, cache, tanh, 0).dWh
    ensures db == ParamsFrom(dh, cache, tanh, 0).db
  {
    var n, t, h := |dh|, |cache|, |cache[0].wh|;
    var d := InputWidth(dh, cache);
    dx := seq(n, _ => ZeroMat(t, d));
    var dprevH, dprevC := ZeroMat(n, h), ZeroMat(n, h);
    dWx, dWh, db := ZeroMat(d, 4 * h), ZeroMat(h, 4 * h), Zeros(4 * h);
    var s := t;
    while s > 0
      invariant 0 <= s <= t
      invariant SweptFrom(dh, cache, tanh, s, dx, dprevH, dprevC, dWx, dWh, db)
    {
      s := s - 1;
      dx, dprevH, dprevC, dWx, dWh, db := ReverseStep(dh, cache, tanh, s, dx, dprevH, dprevC, dWx, dWh, db);
    }
    dh0 := dprevH;
  }
}
