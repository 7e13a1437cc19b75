/**
  The vanilla RNN: one step `next_h = tanh(prev_h.dot(Wh) + x.dot(Wx) + b)`
  with its backward pass, and the loops over time that run it forward over a
  whole sequence and backward in reverse time order.  `tanh` is a parameter;
  what is modelled exactly is everything around it.
*/
module VanillaRnn {
  import opened LinAlg
  import opened Reshape

  /** What one step keeps for its backward pass: the inputs `(Wx, Wh, x, prev_h)`
      and the output `next_h` of the tanh. */
  datatype StepCache = StepCache(wx: Mat, wh: Mat, x: Mat, prevH: Mat, nextH: Mat)

  datatype StepResult = StepResult(nextH: Mat, cache: StepCache)

  /** The five gradients of one step: `dx, dprev_h, dWx, dWh, db`. */
  datatype StepGrads = StepGrads(dx: Mat, dprevH: Mat, dWx: Mat, dWh: Mat, db: Vec)


  /** Shapes of one step: `x` is (N, D), `prev_h` (N, H), `Wx` (D, H), `Wh` (H, H), `b` (H,). */
  predicate StepShapes(x: Mat, prevH: Mat, wx: Mat, wh: Mat, b: Vec) {
    IsMat(x, |x|, |wx|) && IsMat(prevH, |x|, |b|) && IsMat(wx, |wx|, |b|) && IsMat(wh, |b|, |b|)
  }

  /** A cache of shape (N, D, H). */
  predicate CacheShaped(c: StepCache, n: nat, d: nat, h: nat) {
    IsMat(c.wx, d, h) && IsMat(c.wh, h, h) && IsMat(c.x, n, d)
    && IsMat(c.prevH, n, h) && IsMat(c.nextH, n, h)
  }

  /** `prev_h.dot(Wh) + x.dot(Wx) + b`, the argument of the tanh. */
  function PreActivation(x: Mat, prevH: Mat, wx: Mat, wh: Mat, b: Vec): (a: Mat)
    requires StepShapes(x, prevH, wx, wh, b)
    ensures IsMat(a, |x|, |b|)
  {
    AddBias(MatAdd(MatMul(prevH, wh, |b|), MatMul(x, wx, |b|)), b)
  }

  /** `rnn_step_forward(x, prev_h, Wx, Wh, b)`. */
  function StepForward(x: Mat, prevH: Mat, wx: Mat, wh: Mat, b: Vec, tanh: real -> real): (r: StepResult)
    requires StepShapes(x, prevH, wx, wh, b)
    ensures IsMat(r.nextH, |x|, |b|) && CacheShaped(r.cache, |x|, |wx|, |b|)
    ensures r.cache.wx == wx && r.cache.wh == wh
    ensures r.cache.x == x && r.cache.prevH == prevH && r.cache.nextH == r.nextH
  {
    var nextH := MapMat(tanh, PreActivation(x, prevH, wx, wh, b));
    StepResult(nextH, StepCache(wx, wh, x, prevH, nextH))
  }

  /** `1 - next_h**2`, the local derivative of the tanh written with its output. */
  function TanhDeriv(nextH: Mat): (r: Mat)
    ensures SameShape(r, nextH)
  {
    seq(|nextH|, i requires 0 <= i < |nextH| =>
      seq(|nextH[i]|, j requires 0 <= j < |nextH[i]| => 1.0 - nextH[i][j] * nextH[i][j]))
  }

  /** `dArg = dnext_h * (1 - next_h**2)`, the gradient of the tanh's argument. */
  function DArg(dnextH: Mat, c: StepCache): (r: Mat)
    requires SameShape(dnextH, c.nextH)
    ensures SameShape(r, dnextH)
  {
    MatHadamard(dnextH, TanhDeriv(c.nextH))
  }

  /** `rnn_step_backward(dnext_h, cache)`. */
  function StepBackward(dnextH: Mat, c: StepCache): (g: StepGrads)
    requires CacheShaped(c, |c.x|, |c.wx|, |c.wh|) && IsMat(dnextH, |c.x|, |c.wh|)
    ensures IsMat(g.dx, |c.x|, |c.wx|) && IsMat(g.dprevH, |c.x|, |c.wh|)
    ensures IsMat(g.dWx, |c.wx|, |c.wh|) && IsMat(g.dWh, |c.wh|, |c.wh|) && |g.db| == |c.wh|
  {
    var d, h := |c.wx|, |c.wh|;
    var dArg := DArg(dnextH, c);
    StepGrads(
      MatMul(dArg, Transpose(c.wx, h), d),
      MatMul(dArg, Transpose(c.wh, h), h),
      MatMul(Transpose(c.x, d), dArg, h),
      MatMul(Transpose(c.prevH, h), dArg, h),
      SumRows(dArg, h))
  }

  /** The step's backward pass past `dArg` is the adjoint of the first-order
      change of the tanh's argument: for every change `dX, dH, dWx, dWh, dB`
      of the five inputs,
      `<tangent, dArg> == <dX, dx> + <dH, dprev_h> + <dWx, dWx> + <dWh, dWh> + <dB, db>`. */
  lemma {:induction false} StepBackwardIsAdjoint(dnextH: Mat, c: StepCache, dX: Mat, dH: Mat, dWx: Mat, dWh: Mat, dB: Vec)
    requires CacheShaped(c, |c.x|, |c.wx|, |c.wh|) && IsMat(dnextH, |c.x|, |c.wh|)
    requires IsMat(dX, |c.x|, |c.wx|) && IsMat(dH, |c.x|, |c.wh|)
    requires IsMat(dWx, |c.wx|, |c.wh|) && IsMat(dWh, |c.wh|, |c.wh|) && |dB| == |c.wh|
    ensures AffineShapes(c.x, c.prevH, c.wx, c.wh, |c.wh|)
    ensures Inner(AffineTangent(c.x, c.prevH, c.wx, c.wh, |c.wh|, dX, dH, dWx, dWh, dB), DArg(dnextH, c))
         == Inner(dX, StepBackward(dnextH, c).dx) + Inner(dH, StepBackward(dnextH, c).dprevH)
          + Inner(dWx, StepBackward(dnextH, c).dWx) + Inner(dWh, StepBackward(dnextH, c).dWh)
          + Dot(dB, StepBackward(dnextH, c).db)
  {
    AffineAdjoint(c.x, c.prevH, c.wx, c.wh, |c.wh|, dX, dH, dWx, dWh, dB, DArg(dnextH, c));
  }

  // ---------------------------------------------------------------------
  // rnn_forward

  /** `x` is (N, T, D), `h0` is (N, H), and the weights fit them. */
  predicate SequenceShapes(x: Tensor3, h0: Mat, wx: Mat, wh: Mat, b: Vec, t: nat) {
    IsTensor3(x, |x|, t, |wx|) && IsMat(h0, |x|, |b|) && IsMat(wx, |wx|, |b|) && IsMat(wh, |b|, |b|)
  }

  /** The hidden states `h0, h1, ..., hk` of the first `k` steps: each one is
      the step applied to the one before it, step `s` reading `x[:, s, :]`. */
  function Hiddens(x: Tensor3, h0: Mat, wx: Mat, wh: Mat, b: Vec, t: nat, tanh: real -> real, k: nat): (hs: seq<Mat>)
    requires SequenceShapes(x, h0, wx, wh, b, t) && k <= t
    ensures |hs| == k + 1 && hs[0] == h0
    ensures forall j :: 0 <= j <= k ==> IsMat(hs[j], |x|, |b|)
    decreases k
  {
    if k == 0 then [h0]
    else
      var prev := Hiddens(x, h0, wx, wh, b, t, tanh, k - 1);
      TimeSliceShape(x, |x|, t, |wx|, k - 1);
      prev + [StepForward(TimeSlice(x, k - 1), prev[k - 1], wx, wh, b, tanh).nextH]
  }

  /** Running fewer steps gives a prefix of the same states. */
  lemma {:induction false} HiddensPrefix(x: Tensor3, h0: Mat, wx: Mat, wh: Mat, b: Vec, t: nat,
                                         tanh: real -> real, k: nat, j: nat)
    requires SequenceShapes(x, h0, wx, wh, b, t) && j <= k <= t
    ensures Hiddens(x, h0, wx, wh, b, t, tanh, k)[..j + 1] == Hiddens(x, h0, wx, wh, b, t, tanh, j)
    decreases k
  {
    if j < k {
      HiddensPrefix(x, h0, wx, wh, b, t, tanh, k - 1, j);
      var hs := Hiddens(x, h0, wx, wh, b, t, tanh, k);
      assert hs[..k] == Hiddens(x, h0, wx, wh, b, t, tanh, k - 1);
      assert hs[..j + 1] == hs[..k][..j + 1];
    }
  }

  /** `h[:, s + 1]` is the step applied to `h[:, s]` and `x[:, s, :]`, at every `s`. */
  lemma {:induction false} HiddensStep(x: Tensor3, h0: Mat, wx: Mat, wh: Mat, b: Vec, t: nat,
                                       tanh: real -> real, k: nat, s: nat)
    requires SequenceShapes(x, h0, wx, wh, b, t) && s < k <= t
    ensures StepShapes(TimeSlice(x, s), Hiddens(x, h0, wx, wh, b, t, tanh, k)[s], wx, wh, b)
    ensures Hiddens(x, h0, wx, wh, b, t, tanh, k)[s + 1]
         == StepForward(TimeSlice(x, s), Hiddens(x, h0, wx, wh, b, t, tanh, k)[s], wx, wh, b, tanh).nextH
  {
    TimeSliceShape(x, |x|, t, |wx|, s);
    var hs := Hiddens(x, h0, wx, wh, b, t, tanh, k);
    var before := Hiddens(x, h0, wx, wh, b, t, tanh, s);
    var after := Hiddens(x, h0, wx, wh, b, t, tanh, s + 1);
    assert after == before + [StepForward(TimeSlice(x, s), before[s], wx, wh, b, tanh).nextH];
    HiddensPrefix(x, h0, wx, wh, b, t, tanh, k, s + 1);
    assert hs[s + 1] == after[s + 1] && hs[s] == after[s] == before[s];
  }

  /** `rnn_forward(x, h0, Wx, Wh, b)`: runs the step once per time step,
      writes each new hidden state into `h[:, t, :]` and appends each step's
      cache. */
  method Forward(x: Tensor3, h0: Mat, wx: Mat, wh: Mat, b: Vec, t: nat, tanh: real -> real)
    returns (h: Tensor3, cache: seq<StepCache>)
    requires SequenceShapes(x, h0, wx, wh, b, t)
    ensures IsTensor3(h, |x|, t, |b|)
    ensures var hs := Hiddens(x, h0, wx, wh, b, t, tanh, t);
            forall s :: 0 <= s < t ==> TimeSlice(h, s) == hs[s + 1]
    ensures |cache| == t
    ensures var hs := Hiddens(x, h0, wx, wh, b, t, tanh, t);
            forall s :: 0 <= s < t ==> cache[s] == StepCache(wx, wh, TimeSlice(x, s), hs[s], hs[s + 1])
  {
    var n, hh := |x|, |b|;
    h := seq(n, _ => ZeroMat(t, hh));
    cache := [];
    var nextH := h0;
    ghost var hs := [h0];
    var s := 0;
    while s < t
      invariant 0 <= s <= t
      invariant hs == Hiddens(x, h0, wx, wh, b, t, tanh, s) && nextH == hs[s]
      invariant IsTensor3(h, n, t, hh)
      invariant forall k :: 0 <= k < s ==> TimeSlice(h, k) == hs[k + 1]
      invariant |cache| == s
      invariant forall k :: 0 <= k < s ==> cache[k] == StepCache(wx, wh, TimeSlice(x, k), hs[k], hs[k + 1])
    {
      TimeSliceShape(x, n, t, |wx|, s);
      var curX := TimeSlice(x, s);
      var step := StepForward(curX, nextH, wx, wh, b, tanh);
      nextH := step.nextH;
      hs := hs + [nextH];
      SetTimeSliceEffect(h, s, nextH, n, t, hh);
      h := SetTimeSlice(h, s, nextH);
      cache := cache + [step.cache];
      s := s + 1;
    }
    HiddensPrefix(x, h0, wx, wh, b, t, tanh, t, t);
  }

  /** The hidden states up to time `k` depend on the inputs before time `k` only. */
  lemma {:induction false} HiddenIsCausal(x: Tensor3, y: Tensor3, h0: Mat, wx: Mat, wh: Mat, b: Vec,
                                          t: nat, tanh: real -> real, k: nat)
    requires SequenceShapes(x, h0, wx, wh, b, t) && SequenceShapes(y, h0, wx, wh, b, t) && k <= t
    requires forall s :: 0 <= s < k ==> TimeSlice(x, s) == TimeSlice(y, s)
    ensures Hiddens(x, h0, wx, wh, b, t, tanh, k) == Hiddens(y, h0, wx, wh, b, t, tanh, k)
    decreases k
  {
    if k > 0 {
      HiddenIsCausal(x, y, h0, wx, wh, b, t, tanh, k - 1);
    }
  }

  // ---------------------------------------------------------------------
  // rnn_backward

  predicate CachesShaped(cache: seq<StepCache>, n: nat, d: nat, h: nat) {
    forall s :: 0 <= s < |cache| ==> CacheShaped(cache[s], n, d, h)
  }

  /** `dh` is (N, T, H) for the `T >= 1` caches of one forward run; every cache
      has the shapes of the first. */
  predicate BackwardShapes(dh: Tensor3, cache: seq<StepCache>) {
    && |cache| > 0
    && CachesShaped(cache, |dh|, |cache[0].wx|, |cache[0].wh|)
    && IsTensor3(dh, |dh|, |cache|, |cache[0].wh|)
  }

  /** `D`, the width of the inputs, read from `Wx` (D, H) of the first cache:
      it is the width of every cached `x`. */
  function InputWidth(dh: Tensor3, cache: seq<StepCache>): (d: nat)
    requires BackwardShapes(dh, cache)
    ensures forall s, i :: 0 <= s < |cache| && 0 <= i < |dh| ==> |cache[s].x[i]| == d
  {
    |cache[0].wx|
  }

  /** `D = cache[0][1].shape[0]` as the source writes it: item 1 of the cache
      tuple is `Wh`, so this is the row count of `Wh`. */
  function InputWidthAsWritten(cache: seq<StepCache>): nat
    requires |cache| > 0
  {
    |cache[0].wh|
  }

  /** On well-shaped caches the width as written is `H`, not `D`; with D = 1
      and H = 2 the two differ, so `dx = np.empty((N, T, D))` and
      `dWx = np.zeros((D, H))` get the wrong shape. */
  lemma {:induction false} AsWrittenInputWidthMismatch()
    ensures forall dh: Tensor3, cache: seq<StepCache> :: BackwardShapes(dh, cache) ==>
              InputWidthAsWritten(cache) == |cache[0].wh|
    ensures var c := StepCache([[0.0, 0.0]], [[0.0, 0.0], [0.0, 0.0]], [[1.0]], [[0.0, 0.0]], [[0.0, 0.0]]);
            var dh: Tensor3 := [[[1.0, 1.0]]];
            BackwardShapes(dh, [c]) && InputWidthAsWritten([c]) == 2 && InputWidth(dh, [c]) == 1
  {
    var c := StepCache([[0.0, 0.0]], [[0.0, 0.0], [0.0, 0.0]], [[1.0]], [[0.0, 0.0]], [[0.0, 0.0]]);
    var dh: Tensor3 := [[[1.0, 1.0]]];
    assert CacheShaped(c, 1, 1, 2);
    assert IsTensor3(dh, 1, 1, 2);
  }

  /** Step `k` of the reverse sweep: it receives `dh[:, k, :] + dprev_h`,
      where `dprev_h` is the carry from step `k + 1`. */
  function StepAt(dh: Tensor3, cache: seq<StepCache>, k: nat): (g: StepGrads)
    requires BackwardShapes(dh, cache) && k < |cache|
    ensures IsMat(g.dx, |dh|, |cache[0].wx|) && IsMat(g.dprevH, |dh|, |cache[0].wh|)
    ensures IsMat(g.dWx, |cache[0].wx|, |cache[0].wh|) && IsMat(g.dWh, |cache[0].wh|, |cache[0].wh|)
    ensures |g.db| == |cache[0].wh|
    decreases |cache| - k, 0
  {
    TimeSliceShape(dh, |dh|, |cache|, |cache[0].wh|, k);
    StepBackward(MatAdd(TimeSlice(dh, k), Carry(dh, cache, k + 1)), cache[k])
  }

  /** `dprev_h` once steps `T - 1` down to `k` have run: zero before any step. */
  function Carry(dh: Tensor3, cache: seq<StepCache>, k: nat): (r: Mat)
    requires BackwardShapes(dh, cache) && k <= |cache|
    ensures IsMat(r, |dh|, |cache[0].wh|)
    decreases |cache| - k, 1
  {
    if k == |cache| then ZeroMat(|dh|, |cache[0].wh|) else StepAt(dh, cache, k).dprevH
  }

  /** The parameter gradients accumulated over steps `T - 1` down to `k`,
      in the order the loop adds them. */
  function ParamsFrom(dh: Tensor3, cache: seq<StepCache>, k: nat): (g: StepGrads)
    requires BackwardShapes(dh, cache) && k <= |cache|
    ensures IsMat(g.dWx, |cache[0].wx|, |cache[0].wh|) && IsMat(g.dWh, |cache[0].wh|, |cache[0].wh|)
    ensures |g.db| == |cache[0].wh|
    decreases |cache| - k
  {
    var d, h := |cache[0].wx|, |cache[0].wh|;
    if k == |cache| then StepGrads([], [], ZeroMat(d, h), ZeroMat(h, h), Zeros(h))
    else
      var rest := ParamsFrom(dh, cache, k + 1);
      var step := StepAt(dh, cache, k);
      StepGrads([], [], MatAdd(rest.dWx, step.dWx), MatAdd(rest.dWh, step.dWh), VecAdd(rest.db, step.db))
  }

  /** One iteration of the reverse sweep, unfolded. */
  lemma {:induction false} SweepStep(dh: Tensor3, cache: seq<StepCache>, k: nat)
    requires BackwardShapes(dh, cache) && k < |cache|
    ensures IsMat(TimeSlice(dh, k), |dh|, |cache[0].wh|)
    ensures StepAt(dh, cache, k) == StepBackward(MatAdd(TimeSlice(dh, k), Carry(dh, cache, k + 1)), cache[k])
    ensures Carry(dh, cache, k) == StepAt(dh, cache, k).dprevH
    ensures ParamsFrom(dh, cache, k).dWx == MatAdd(ParamsFrom(dh, cache, k + 1).dWx, StepAt(dh, cache, k).dWx)
    ensures ParamsFrom(dh, cache, k).dWh == MatAdd(ParamsFrom(dh, cache, k + 1).dWh, StepAt(dh, cache, k).dWh)
    ensures ParamsFrom(dh, cache, k).db == VecAdd(ParamsFrom(dh, cache, k + 1).db, StepAt(dh, cache, k).db)
  {
    TimeSliceShape(dh, |dh|, |cache|, |cache[0].wh|, k);
  }

  /** `rnn_backward(dh, cache)`: walks `t` from `T - 1` down to `0`, feeding
      each step `dh[:, t, :] + dprev_h`, storing its `dx` in `dx[:, t, :]`
      and adding its parameter gradients to the totals. */
  method Backward(dh: Tensor3, cache: seq<StepCache>)
    returns (dx: Tensor3, dh0: Mat, dWx: Mat, dWh: Mat, db: Vec)
    requires BackwardShapes(dh, cache)
    ensures IsTensor3(dx, |dh|, |cache|, InputWidth(dh, cache))
    ensures forall k :: 0 <= k < |cache| ==> TimeSlice(dx, k) == StepAt(dh, cache, k).dx
    ensures dh0 == Carry(dh, cache, 0)
    ensures dWx == ParamsFrom(dh, cache, 0).dWx
    ensures dWh == ParamsFrom(dh, cache, 0).dWh
    ensures db == ParamsFrom(dh, cache, 0).db
  {
    var n, t, h := |dh|, |cache|, |cache[0].wh|;
    var d := InputWidth(dh, cache);
    dx := seq(n, _ => ZeroMat(t, d));
    var dprevH := ZeroMat(n, h);
    dWx, dWh, db := ZeroMat(d, h), ZeroMat(h, h), Zeros(h);
    var s := t;
    while s > 0
      invariant 0 <= s <= t
      invariant dprevH == Carry(dh, cache, s)
      invariant dWx == ParamsFrom(dh, cache, s).dWx
      invariant dWh == ParamsFrom(dh, cache, s).dWh
      invariant db == ParamsFrom(dh, cache, s).db
      invariant IsTensor3(dx, n, t, d)
      invariant forall k :: s <= k < t ==> TimeSlice(dx, k) == StepAt(dh, cache, k).dx
    {
      s := s - 1;
      SweepStep(dh, cache, s);
      var totalDh := MatAdd(TimeSlice(dh, s), dprevH);
      var step := StepBackward(totalDh, cache[s]);
      dprevH := step.dprevH;
      SetTimeSliceEffect(dx, s, step.dx, n, t, d);
      dx := SetTimeSlice(dx, s, step.dx);
      dWx := MatAdd(dWx, step.dWx);
      dWh := MatAdd(dWh, step.dWh);
      db := VecAdd(db, step.db);
    }
    dh0 := dprevH;
  }
}
