/**
  Word embeddings: the forward pass looks every word index up in a (V, D)
  table; the backward pass scatter-adds the upstream gradient of every
  position into the row of the word found there.
*/
module WordEmbedding {
  import opened LinAlg
  import opened Reshape

  /** `x` has shape (N, T) and every index lies in `0 <= idx < V`. */
  predicate InVocabulary(x: seq<seq<int>>, t: nat, v: nat) {
    forall n :: 0 <= n < |x| ==> |x[n]| == t && forall s :: 0 <= s < t ==> 0 <= x[n][s] < v
  }

  /** `W[idx]`: the rows of `w` picked by an index vector. */
  function Gather(w: Mat, idx: seq<int>): (r: Mat)
    requires forall s :: 0 <= s < |idx| ==> 0 <= idx[s] < |w|
    ensures |r| == |idx|
  {
    seq(|idx|, s requires 0 <= s < |idx| => w[idx[s]])
  }

  /** The value `word_embedding_forward` produces: block `n` is `W[x[n]]`. */
  function Lookup(x: seq<seq<int>>, w: Mat, t: nat): (out: Tensor3)
    requires InVocabulary(x, t, |w|)
    ensures |out| == |x|
  {
    seq(|x|, n requires 0 <= n < |x| => Gather(w, x[n]))
  }

  /** `Σ_s (g[s] if idx[s] == word)`: what one index vector adds to the row of `word`. */
  function RowOccurrences(idx: seq<int>, g: Mat, word: int, d: nat): (r: Vec)
    requires |idx| == |g| && IsMat(g, |g|, d)
    ensures |r| == d
    decreases |idx|
  {
    if |idx| == 0 then Zeros(d)
    else
      var k := |idx| - 1;
      VecAdd(RowOccurrences(idx[..k], g[..k], word, d), if idx[k] == word then g[k] else Zeros(d))
  }

  /** `Σ_n Σ_t (dout[n][t] if x[n][t] == word)`: the upstream gradient of
      every position that holds `word`, each occurrence counted. */
  function Occurrences(x: seq<seq<int>>, dout: Tensor3, word: int, t: nat, d: nat): (r: Vec)
    requires |dout| == |x| && IsTensor3(dout, |x|, t, d) && Uniform(x, t)
    ensures |r| == d
    decreases |x|
  {
    if |x| == 0 then Zeros(d)
    else
      var k := |x| - 1;
      VecAdd(Occurrences(x[..k], dout[..k], word, t, d), RowOccurrences(x[k], dout[k], word, d))
  }

  /** The (V, D) gradient table the backward pass must produce. */
  function EmbeddingGrad(x: seq<seq<int>>, dout: Tensor3, v: nat, t: nat, d: nat): (dw: Mat)
    requires InVocabulary(x, t, v) && IsTensor3(dout, |x|, t, d)
    ensures IsMat(dw, v, d)
  {
    seq(v, word requires 0 <= word < v => Occurrences(x, dout, word, t, d))
  }

  // ---------------------------------------------------------------------
  // Methods

  /** `word_embedding_forward(x, W)`: fills `out[n, :, :] = W[x[n]]` block by block. */
  method Forward(x: seq<seq<int>>, w: Mat, t: nat, d: nat) returns (out: Tensor3)
    requires InVocabulary(x, t, |w|) && IsMat(w, |w|, d)
    ensures IsTensor3(out, |x|, t, d)
    ensures forall n, s :: 0 <= n < |x| && 0 <= s < t ==> out[n][s] == w[x[n][s]]
    ensures out == Lookup(x, w, t)
  {
    out := seq(|x|, _ => ZeroMat(t, d));
    var n := 0;
    while n < |x|
      invariant 0 <= n <= |x|
      invariant IsTensor3(out, |x|, t, d)
      invariant forall i :: 0 <= i < n ==> out[i] == Gather(w, x[i])
    {
      out := out[n := Gather(w, x[n])];
      n := n + 1;
    }
  }

  /** `np.add.at(dW, idx, g)`: adds `g[s]` to row `idx[s]` for every `s` in
      turn, so an index that occurs twice receives both rows. */
  method AddAt(dw: array<Vec>, idx: seq<int>, g: Mat, d: nat)
    requires |idx| == |g| && IsMat(g, |g|, d)
    requires forall s :: 0 <= s < |idx| ==> 0 <= idx[s] < dw.Length
    requires forall word :: 0 <= word < dw.Length ==> |dw[word]| == d
    modifies dw
    ensures forall word :: 0 <= word < dw.Length ==>
              dw[word] == VecAdd(old(dw[word]), RowOccurrences(idx, g, word, d))
  {
    var s := 0;
    while s < |idx|
      invariant 0 <= s <= |idx|
      invariant forall word :: 0 <= word < dw.Length ==>
                  dw[word] == VecAdd(old(dw[word]), RowOccurrences(idx[..s], g[..s], word, d))
    {
      forall word | 0 <= word < dw.Length
        ensures RowOccurrences(idx[..s + 1], g[..s + 1], word, d)
             == VecAdd(RowOccurrences(idx[..s], g[..s], word, d), if idx[s] == word then g[s] else Zeros(d))
      {
        assert idx[..s + 1][..s] == idx[..s];
        assert g[..s + 1][..s] == g[..s];
      }
      forall word | 0 <= word < dw.Length
        ensures VecAdd(VecAdd(old(dw[word]), RowOccurrences(idx[..s], g[..s], word, d)),
                       if idx[s] == word then g[s] else Zeros(d))
             == VecAdd(old(dw[word]), RowOccurrences(idx[..s + 1], g[..s + 1], word, d))
      {
        VecAddAssoc(old(dw[word]), RowOccurrences(idx[..s], g[..s], word, d),
                    if idx[s] == word then g[s] else Zeros(d));
      }
      dw[idx[s]] := VecAdd(dw[idx[s]], g[s]);
      forall word | 0 <= word < dw.Length && word != idx[s]
        ensures dw[word] == VecAdd(dw[word], Zeros(d))
      {
        VecAddZero(dw[word]);
      }
      s := s + 1;
    }
    assert idx[..s] == idx && g[..s] == g;
  }

  /** `word_embedding_backward(dout, cache)`: starts from a zero (V, D) table
      and applies `np.add.at` once per sequence of the minibatch. */
  method Backward(dout: Tensor3, x: seq<seq<int>>, v: nat, t: nat, d: nat) returns (dW: Mat)
    requires InVocabulary(x, t, v) && IsTensor3(dout, |x|, t, d)
    ensures IsMat(dW, v, d)
    ensures forall word :: 0 <= word < v ==> dW[word] == Occurrences(x, dout, word, t, d)
    ensures dW == EmbeddingGrad(x, dout, v, t, d)
  {
    var table := new Vec[v](_ => Zeros(d));
    var n := 0;
    while n < |x|
      invariant 0 <= n <= |x|
      invariant forall word :: 0 <= word < v ==>
                  table[word] == Occurrences(x[..n], dout[..n], word, t, d)
    {
      assert x[..n + 1][..n] == x[..n] && dout[..n + 1][..n] == dout[..n];
      AddAt(table, x[n], dout[n], d);
      n := n + 1;
    }
    assert x[..n] == x && dout[..n] == dout;
    dW := table[..];
  }

  // ---------------------------------------------------------------------
  // Properties of the gradient table

  /** A word that occurs nowhere in `x` keeps an all-zero row. */
  lemma {:induction false} UnusedWordRowIsZero(x: seq<seq<int>>, dout: Tensor3, word: int, t: nat, d: nat)
    requires IsTensor3(dout, |x|, t, d) && Uniform(x, t)
    requires forall n, s :: 0 <= n < |x| && 0 <= s < t ==> x[n][s] != word
    ensures Occurrences(x, dout, word, t, d) == Zeros(d)
    decreases |x|
  {
    if |x| > 0 {
      var k := |x| - 1;
      UnusedWordRowIsZero(x[..k], dout[..k], word, t, d);
      UnusedInRow(x[k], dout[k], word, d);
    }
  }

  lemma {:induction false} UnusedInRow(idx: seq<int>, g: Mat, word: int, d: nat)
    requires |idx| == |g| && IsMat(g, |g|, d)
    requires forall s :: 0 <= s < |idx| ==> idx[s] != word
    ensures RowOccurrences(idx, g, word, d) == Zeros(d)
    decreases |idx|
  {
    if |idx| > 0 {
      var k := |idx| - 1;
      UnusedInRow(idx[..k], g[..k], word, d);
    }
  }

  /** `x` with the index at position (n, s) replaced by `other`. */
  function Erase(x: seq<seq<int>>, n: nat, s: nat, other: int): (r: seq<seq<int>>)
    requires n < |x| && s < |x[n]|
    ensures |r| == |x| && forall i :: 0 <= i < |x| ==> |r[i]| == |x[i]|
  {
    x[n := x[n][s := other]]
  }

  /** In one index vector, the occurrence of `word` at `s` adds exactly `g[s]`. */
  lemma {:induction false} RowOccurrenceContributes(idx: seq<int>, g: Mat, word: int, other: int, d: nat, s: nat)
    requires |idx| == |g| && IsMat(g, |g|, d)
    requires s < |idx| && idx[s] == word && other != word
    ensures RowOccurrences(idx, g, word, d) == VecAdd(RowOccurrences(idx[s := other], g, word, d), g[s])
    decreases |idx|
  {
    var idx' := idx[s := other];
    var k := |idx| - 1;
    var front := RowOccurrences(idx[..k], g[..k], word, d);
    if s == k {
      assert idx'[..k] == idx[..k];
      assert VecAdd(VecAdd(front, Zeros(d)), g[s]) == VecAdd(front, g[s]);
    } else {
      assert idx'[..k] == idx[..k][s := other];
      RowOccurrenceContributes(idx[..k], g[..k], word, other, d, s);
      var rest := RowOccurrences(idx'[..k], g[..k], word, d);
      var e := if idx[k] == word then g[k] else Zeros(d);
      assert VecAdd(VecAdd(rest, g[s]), e) == VecAdd(VecAdd(rest, e), g[s]);
    }
  }

  /** Every occurrence of `word` contributes its own upstream row: writing
      another index at one occurrence (n, s) takes exactly `dout[n][s]` away
      from the row of `word`. */
  lemma {:induction false} OccurrenceContributes(x: seq<seq<int>>, dout: Tensor3, word: int, other: int,
                                                 t: nat, d: nat, n: nat, s: nat)
    requires IsTensor3(dout, |x|, t, d) && Uniform(x, t)
    requires n < |x| && s < t && x[n][s] == word && other != word
    ensures Uniform(Erase(x, n, s, other), t)
    ensures Occurrences(x, dout, word, t, d)
         == VecAdd(Occurrences(Erase(x, n, s, other), dout, word, t, d), dout[n][s])
    decreases |x|
  {
    var x' := Erase(x, n, s, other);
    var k := |x| - 1;
    var front := Occurrences(x[..k], dout[..k], word, t, d);
    if n == k {
      assert x'[..k] == x[..k];
      RowOccurrenceContributes(x[k], dout[k], word, other, d, s);
      VecAddAssoc(front, RowOccurrences(x'[k], dout[k], word, d), dout[n][s]);
    } else {
      assert x'[..k] == Erase(x[..k], n, s, other);
      OccurrenceContributes(x[..k], dout[..k], word, other, t, d, n, s);
      var rest := Occurrences(x'[..k], dout[..k], word, t, d);
      var r := RowOccurrences(x[k], dout[k], word, d);
      assert VecAdd(VecAdd(rest, dout[n][s]), r) == VecAdd(VecAdd(rest, r), dout[n][s]);
    }
  }

  /** A word found at two distinct positions receives both upstream rows on
      top of its other occurrences, not only the last one written; when those
      two are its only occurrences, its row is exactly their sum. */
  lemma {:induction false} RepeatedWordAccumulates(x: seq<seq<int>>, dout: Tensor3, word: int, other: int,
                                                   t: nat, d: nat, n1: nat, s1: nat, n2: nat, s2: nat)
    requires IsTensor3(dout, |x|, t, d) && Uniform(x, t) && other != word
    requires n1 < |x| && s1 < t && n2 < |x| && s2 < t && (n1 != n2 || s1 != s2)
    requires x[n1][s1] == word && x[n2][s2] == word
    ensures Uniform(Erase(Erase(x, n1, s1, other), n2, s2, other), t)
    ensures Occurrences(x, dout, word, t, d)
         == VecAdd(VecAdd(Occurrences(Erase(Erase(x, n1, s1, other), n2, s2, other), dout, word, t, d),
                          dout[n1][s1]), dout[n2][s2])
    ensures (forall n, s :: 0 <= n < |x| && 0 <= s < t && x[n][s] == word ==> (n == n1 && s == s1) || (n == n2 && s == s2))
         ==> Occurrences(x, dout, word, t, d) == VecAdd(dout[n1][s1], dout[n2][s2])
  {
    var x1 := Erase(x, n1, s1, other);
    var x2 := Erase(x1, n2, s2, other);
    OccurrenceContributes(x, dout, word, other, t, d, n1, s1);
    OccurrenceContributes(x1, dout, word, other, t, d, n2, s2);
    VecAddAssoc(Occurrences(x2, dout, word, t, d), dout[n2][s2], dout[n1][s1]);
    var rest := Occurrences(x2, dout, word, t, d);
    assert VecAdd(rest, VecAdd(dout[n2][s2], dout[n1][s1])) == VecAdd(VecAdd(rest, dout[n1][s1]), dout[n2][s2]);
    if forall n, s :: 0 <= n < |x| && 0 <= s < t && x[n][s] == word ==> (n == n1 && s == s1) || (n == n2 && s == s2) {
      assert forall n, s :: 0 <= n < |x2| && 0 <= s < t ==> x2[n][s] != word;
      UnusedWordRowIsZero(x2, dout, word, t, d);
      assert VecAdd(VecAdd(Zeros(d), dout[n1][s1]), dout[n2][s2]) == VecAdd(dout[n1][s1], dout[n2][s2]);
    }
  }

  // ---------------------------------------------------------------------
  // The backward pass is the adjoint of the lookup

  /** The table with `row` in row `i` and zeros elsewhere. */
  function OneHotRow(v: nat, i: int, row: Vec): (r: Mat)
    ensures IsMat(r, v, |row|)
  {
    var zero := Zeros(|row|);
    seq(v, word requires 0 <= word < v => if word == i then row else zero)
  }

  lemma {:induction false} InnerOneHotRow(w: Mat, i: int, row: Vec)
    requires IsMat(w, |w|, |row|) && 0 <= i
    ensures Inner(w, OneHotRow(|w|, i, row)) == if i < |w| then Dot(w[i], row) else 0.0
    decreases |w|
  {
    if |w| > 0 {
      var k := |w| - 1;
      assert OneHotRow(|w|, i, row)[..k] == OneHotRow(k, i, row);
      InnerOneHotRow(w[..k], i, row);
      DotZerosRight(w[k]);
    }
  }

  /** The gradient table of one index vector. */
  function RowGrad(idx: seq<int>, g: Mat, v: nat, d: nat): (r: Mat)
    requires |idx| == |g| && IsMat(g, |g|, d)
    ensures IsMat(r, v, d)
  {
    seq(v, word requires 0 <= word < v => RowOccurrences(idx, g, word, d))
  }

  /** Adding one more (index, row) pair adds a one-hot table. */
  lemma {:induction false} RowGradSnoc(idx: seq<int>, g: Mat, v: nat, d: nat)
    requires |idx| == |g| > 0 && IsMat(g, |g|, d)
    ensures RowGrad(idx, g, v, d)
         == MatAdd(RowGrad(idx[..|idx| - 1], g[..|g| - 1], v, d), OneHotRow(v, idx[|idx| - 1], g[|g| - 1]))
  {
  }

  /** Pairing `W` with the gradient of one more (index, row) pair adds that
      row paired with `W[index]`. */
  lemma {:induction false} InnerRowGradSnoc(w: Mat, idx: seq<int>, g: Mat, d: nat)
    requires IsMat(w, |w|, d) && |idx| == |g| > 0 && IsMat(g, |g|, d)
    requires 0 <= idx[|idx| - 1] < |w|
    ensures Inner(w, RowGrad(idx, g, |w|, d))
         == Inner(w, RowGrad(idx[..|idx| - 1], g[..|g| - 1], |w|, d)) + Dot(w[idx[|idx| - 1]], g[|g| - 1])
  {
    var k := |idx| - 1;
    var front := RowGrad(idx[..k], g[..k], |w|, d);
    var hot := OneHotRow(|w|, idx[k], g[k]);
    RowGradSnoc(idx, g, |w|, d);
    InnerAddRight(w, front, hot);
    InnerOneHotRow(w, idx[k], g[k]);
  }

  lemma {:induction false} RowAdjoint(w: Mat, idx: seq<int>, g: Mat, d: nat)
    requires IsMat(w, |w|, d) && |idx| == |g| && IsMat(g, |g|, d)
    requires forall s :: 0 <= s < |idx| ==> 0 <= idx[s] < |w|
    ensures Inner(Gather(w, idx), g) == Inner(w, RowGrad(idx, g, |w|, d))
    decreases |idx|
  {
    if |idx| == 0 {
      assert RowGrad(idx, g, |w|, d) == ZeroMat(|w|, d);
      InnerZeroRight(w, d);
    } else {
      var k := |idx| - 1;
      assert Gather(w, idx)[..k] == Gather(w, idx[..k]);
      RowAdjoint(w, idx[..k], g[..k], d);
      InnerRowGradSnoc(w, idx, g, d);
    }
  }

  /** `<W[x], dout> == <W, dW>`: for every table `W`, the lookup paired with
      the upstream gradient equals `W` paired with the scatter-added gradient. */
  lemma {:induction false} BackwardIsAdjoint(x: seq<seq<int>>, w: Mat, dout: Tensor3, t: nat, d: nat)
    requires InVocabulary(x, t, |w|) && IsMat(w, |w|, d) && IsTensor3(dout, |x|, t, d)
    ensures SameShape3(Lookup(x, w, t), dout)
    ensures Inner3(Lookup(x, w, t), dout) == Inner(w, EmbeddingGrad(x, dout, |w|, t, d))
    decreases |x|
  {
    var v := |w|;
    if |x| == 0 {
      assert EmbeddingGrad(x, dout, v, t, d) == ZeroMat(v, d);
      InnerZeroRight(w, d);
    } else {
      var k := |x| - 1;
      assert Lookup(x, w, t)[..k] == Lookup(x[..k], w, t);
      BackwardIsAdjoint(x[..k], w, dout[..k], t, d);
      InnerEmbeddingGradSnoc(x, w, dout, t, d);
      RowAdjoint(w, x[k], dout[k], d);
    }
  }

  /** Pairing `W` with the gradient of one more sentence adds `W` paired with
      that sentence's gradient table. */
  lemma {:induction false} InnerEmbeddingGradSnoc(x: seq<seq<int>>, w: Mat, dout: Tensor3, t: nat, d: nat)
    requires |x| > 0 && InVocabulary(x, t, |w|) && IsMat(w, |w|, d) && IsTensor3(dout, |x|, t, d)
    ensures Inner(w, EmbeddingGrad(x, dout, |w|, t, d))
         == Inner(w, EmbeddingGrad(x[..|x| - 1], dout[..|x| - 1], |w|, t, d))
          + Inner(w, RowGrad(x[|x| - 1], dout[|x| - 1], |w|, d))
  {
    var k, v := |x| - 1, |w|;
    assert EmbeddingGrad(x, dout, v, t, d)
        == MatAdd(EmbeddingGrad(x[..k], dout[..k], v, t, d), RowGrad(x[k], dout[k], v, d));
    InnerAddRight(w, EmbeddingGrad(x[..k], dout[..k], v, t, d), RowGrad(x[k], dout[k], v, d));
  }
}
