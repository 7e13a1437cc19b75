# Recurrent-network layers, modelled in Dafny

This project models the layer primitives of `cs231n/rnn_layers.py`, the
recurrent-network layers of a deep-learning coursework assignment. Each
layer has a forward pass and a backward pass derived by hand. The model
keeps the parts of that code whose behaviour is exact:

- the word-embedding lookup and its scatter-add gradient;
- the temporal affine layer and its reshapes between (N, T, D) tensors
  and (N·T, D) matrices;
- the linear and polynomial algebra of the vanilla RNN and LSTM step
  backward passes, including the gate split and stack order;
- the four loops over time (`rnn_forward`, `rnn_backward`,
  `lstm_forward`, `lstm_backward`);
- the masking in the temporal softmax loss.

All numbers are exact `real`s. A vector is `seq<real>`, a matrix is a
sequence of rows, and an (N, T, D) tensor is a sequence of N matrices.
The nonlinearities (`tanh`, `sigmoid` and `log`) are parameters of type
`real -> real`. The softmax probabilities are an arbitrary (N·T, V)
matrix.

The main correctness statement for each backward pass is an **adjoint
identity**. Pair the first-order change of the forward pass's outputs
with the upstream gradient. This equals the change of the inputs paired
with the gradients the backward pass returns. The identity holds for
every change of the inputs. It says that the backward pass is the
transpose of the forward pass's linearisation, and it needs no analysis
of `tanh` or `sigmoid`: their local derivatives appear only as the
factors the source writes, `s·(1−s)` and `1−t²`.

Files:

| file | module | what it holds |
|---|---|---|
| `linalg.dfy` | `LinAlg` | vectors and matrices, products, transposes, inner products, bilinearity lemmas, the affine map shared by both cells |
| `reshape.dfy` | `Reshape` | row-major reshapes, time slices `x[:, t, :]`, tensor sums |
| `embedding.dfy` | `WordEmbedding` | `word_embedding_forward` / `_backward` |
| `temporal_affine.dfy` | `TemporalAffine` | `temporal_affine_forward` / `_backward` |
| `rnn.dfy` | `VanillaRnn` | `rnn_step_forward` / `_backward`, `rnn_forward`, `rnn_backward` |
| `lstm.dfy` | `Lstm` | `lstm_step_forward` / `_backward`, `lstm_forward`, `lstm_backward` |
| `softmax_loss.dfy` | `SoftmaxLoss` | `temporal_softmax_loss` |

The imperative code becomes methods with `while` loops:

- the embedding's block-by-block fill and its `np.add.at` loop over an
  `array` table;
- the four time loops.

Each method is proved against a specification function: the lookup
against a sequence comprehension, and the scatter-add and the time loops
against recursive functions. The specification functions then carry the
properties.

The straight-line numpy expressions become functions and lemmas.

## Model

| member | source | states |
|---|---|---|
| WordEmbedding.Forward | cs231n/rnn_layers.py:220-226 | the output is (N, T, D), and `out[n][t] == W[x[n][t]]` at every position, for indices in `0 <= idx < V` |
| WordEmbedding.AddAt | cs231n/rnn_layers.py:271 | `np.add.at(dW, idx, g)`: every row `word` of the table gains the sum of the `g[s]` with `idx[s] == word`, so a repeated index adds every one of its rows; no other change |
| WordEmbedding.Backward | cs231n/rnn_layers.py:258-271 | the (V, D) result has, in row `word`, the sum of `dout[n][t]` over all positions holding `word` |
| WordEmbedding.UnusedWordRowIsZero | cs231n/rnn_layers.py:261-271 | a word that occurs nowhere in `x` has an all-zero gradient row |
| WordEmbedding.OccurrenceContributes | cs231n/rnn_layers.py:261-271 | for any `x` and any position holding `word`, the row of `word` is that position's upstream row plus what the row would be with a different index written there: each occurrence adds its own row |
| WordEmbedding.RepeatedWordAccumulates | cs231n/rnn_layers.py:271 | for any `x` and any two distinct positions holding `word`, its row is both upstream rows plus its other occurrences, not only the last one written; when those are its only two occurrences, the row is exactly their sum |
| WordEmbedding.BackwardIsAdjoint | cs231n/rnn_layers.py:237-271 | Σ out·dout == Σ W·dW: the scatter-add is the adjoint of the lookup |
| WordEmbedding.RowAdjoint | cs231n/rnn_layers.py:262-271 | the same identity for the rows of one sequence, `W[idx]` against one `np.add.at` |
| TemporalAffine.Forward | cs231n/rnn_layers.py:544-546 | the output is (N, T, M) |
| TemporalAffine.ForwardAt | cs231n/rnn_layers.py:546 | `out[n][t][m] == Σ_d x[n][t][d]·w[d][m] + b[m]`: the reshape to N·T rows and back keeps every (n, t) in place |
| TemporalAffine.LinearPartBlocks | cs231n/rnn_layers.py:546 | the row-wise product of the flattened rows, reshaped back, is the product of each (T, D) block |
| TemporalAffine.Backward | cs231n/rnn_layers.py:564-570 | `dx`, `dw`, `db` have the shapes of `x`, `w`, `b` |
| TemporalAffine.BackwardDxAt | cs231n/rnn_layers.py:568 | `dx[n][t] == dout[n][t]·wᵀ` at every position |
| TemporalAffine.BackwardDwIsSumOverPositions | cs231n/rnn_layers.py:569 | `dw`, written as `(doutᵀ·x)ᵀ`, equals Σ over (n, t) of the outer products `x[n][t]ᵀ·dout[n][t]` |
| TemporalAffine.InputGradIsAdjoint | cs231n/rnn_layers.py:568 | for every change δ of `x`, ⟨δ·w, dout⟩ == ⟨δ, dx⟩ |
| TemporalAffine.WeightGradIsAdjoint | cs231n/rnn_layers.py:569 | for every change δ of `w`, ⟨x·δ, dout⟩ == ⟨δ, dw⟩ |
| TemporalAffine.BiasGradIsAdjoint | cs231n/rnn_layers.py:570 | for every change δ of `b`, ⟨δ broadcast over (n, t), dout⟩ == ⟨δ, db⟩, where `db[m]` is the sum of `dout[n][t][m]` over n and t |
| Reshape.UnflattenConcat | cs231n/rnn_layers.py:546 | reshaping (N, T, D) to N·T rows and back gives the tensor back |
| Reshape.ConcatUnflatten | cs231n/rnn_layers.py:568 | reshaping N·T rows to (N, T, D) and flattening again gives the rows back |
| Reshape.ConcatAt | cs231n/rnn_layers.py:546 | item `t` of block `n` is row `n·T + t` of the flattened rows |
| Reshape.SetTimeSliceEffect | cs231n/rnn_layers.py:134 | `h[:, t, :] = m` writes slice `t` and leaves every other slice as it was |
| LinAlg.AffineAdjoint | cs231n/rnn_layers.py:86-93 | consider the affine map `x·Wx + prev_h·Wh + b` shared by both cells, and any change of its five inputs. The change of the map, paired with `dArg`, equals the input changes paired with `dArg·Wxᵀ`, `dArg·Whᵀ`, `xᵀ·dArg`, `prev_hᵀ·dArg` and the column sums of `dArg` |
| VanillaRnn.StepForward | cs231n/rnn_layers.py:35-38 | `next_h` is (N, H); the cache holds `x`, `prev_h`, `Wx`, `Wh` and the tanh output |
| VanillaRnn.StepBackward | cs231n/rnn_layers.py:71-93 | the five gradients have the shapes of `x`, `prev_h`, `Wx`, `Wh`, `b` |
| VanillaRnn.StepBackwardIsAdjoint | cs231n/rnn_layers.py:80-93 | past `dArg = dnext_h·(1 − next_h²)`, the step's gradients are the adjoint of the first-order change of the tanh's argument |
| VanillaRnn.Hiddens | cs231n/rnn_layers.py:129-135 | the states `h0, h1, …, hk` of the first `k` steps start at `h0` and are (N, H) |
| VanillaRnn.HiddensPrefix | cs231n/rnn_layers.py:131-134 | running fewer steps gives a prefix of the same states |
| VanillaRnn.HiddensStep | cs231n/rnn_layers.py:132-133 | state `s + 1` is `rnn_step_forward` applied to `x[:, s, :]` and state `s` |
| VanillaRnn.Forward | cs231n/rnn_layers.py:125-140 | `h[:, t, :]` is the step applied `t + 1` times from `h0`, and `cache[t]` holds `Wx`, `Wh`, `x[:, t, :]`, the state before step `t` and the state after it |
| VanillaRnn.HiddenIsCausal | cs231n/rnn_layers.py:131-134 | the states up to time `k` depend on the inputs before time `k` only |
| VanillaRnn.InputWidth | cs231n/rnn_layers.py:164 | the corrected `D`, read from `Wx`, is the width of every cached `x` |
| VanillaRnn.AsWrittenInputWidthMismatch | cs231n/rnn_layers.py:164 | `D` as written is `H` on every well-shaped cache, and there are caches with D = 1 and H = 2 |
| VanillaRnn.StepAt | cs231n/rnn_layers.py:172-181 | the gradients of reverse-sweep step `t` have the step's shapes; their value is stated by SweepStep |
| VanillaRnn.Carry | cs231n/rnn_layers.py:167-179 | the carried `dprev_h` is (N, H); its value is stated by SweepStep |
| VanillaRnn.ParamsFrom | cs231n/rnn_layers.py:168-184 | the parameter totals are (D, H), (H, H) and (H,); how each step adds to them is stated by SweepStep |
| VanillaRnn.SweepStep | cs231n/rnn_layers.py:178-184 | step `t` is `rnn_step_backward(dh[:, t, :] + dprev_h)`, where `dprev_h` is the carry from step `t + 1`; after it the carry is its `dprev_h` and the totals have its parameter gradients added |
| VanillaRnn.Backward | cs231n/rnn_layers.py:163-191 | `dx[:, t, :]` is step `t`'s `dx`; `dh0` is the carry after step 0; `dWx`, `dWh` and `db` are the sums of the per-step gradients |
| Lstm.Split | cs231n/rnn_layers.py:321 | `np.split(a, 4, axis=1)` gives four (N, H) blocks |
| Lstm.HStack | cs231n/rnn_layers.py:409 | `np.hstack` of four (N, H) blocks is (N, 4H) |
| Lstm.HStackAt | cs231n/rnn_layers.py:409 | unit `j` of gate `k` (order i, f, o, g) sits in column `k·H + j` of `da` |
| Lstm.SplitHStack | cs231n/rnn_layers.py:321 | splitting the stacked gate gradients gives back the four blocks, in the order in which `a` was split |
| Lstm.HStackSplit | cs231n/rnn_layers.py:409 | stacking the split blocks gives the matrix back |
| Lstm.InnerHStack | cs231n/rnn_layers.py:409 | pairing two stacked matrices is the sum of the gate-by-gate pairings |
| Lstm.StepForward | cs231n/rnn_layers.py:317-334 | `next_h` and `next_c` are (N, H), and the cache holds `x`, `prev_h`, `prev_c`, `Wx`, `Wh` and `next_c` |
| Lstm.PreActivationAt | cs231n/rnn_layers.py:318 | `a[r][j]` is row `r` of `x·Wx + prev_h·Wh` at column `j`, plus `b[j]` |
| Lstm.GateValuesAt | cs231n/rnn_layers.py:321-323 | `i`, `f`, `o` are the sigmoid of blocks 0, 1, 2 of `a`, and `g` is the tanh of block 3 |
| Lstm.StepForwardAt | cs231n/rnn_layers.py:318-326 | entry by entry, `next_c = f·prev_c + i·g` and `next_h = o·tanh(next_c)`, with the gates those of `a` |
| Lstm.StepBackward | cs231n/rnn_layers.py:361-430 | the six gradients have the shapes of `x`, `prev_h`, `prev_c`, `Wx`, `Wh`, `b` |
| Lstm.CellGradientsFactored | cs231n/rnn_layers.py:368-398 | with `alt = dnext_h·o·(1 − tanh(next_c)²)`, `dprev_c`, `df`, `di` and `dg` are `(dnext_c + alt)` times `f`, `prev_c`, `g` and `i`, and `do = dnext_h·tanh(next_c)` |
| Lstm.CellGradientsAt | cs231n/rnn_layers.py:368-398 | the same gradients, entry by entry |
| Lstm.GateArgGradsAt | cs231n/rnn_layers.py:402-406 | `da_i = di·i·(1−i)`, `da_f`, `da_o` likewise, and `da_g = dg·(1−g²)`, entry by entry |
| Lstm.CellEntryAdjoint | cs231n/rnn_layers.py:368-406 | for one entry, the product-rule change of `next_h` and `next_c` paired with `dnext_h` and `dnext_c` equals the changes of the gate arguments and of `prev_c` paired with `da_*` and `dprev_c` |
| Lstm.CellProductsAgree | cs231n/rnn_layers.py:368-406 | the entrywise identity holds on the whole (N, H) matrices |
| Lstm.CellBackwardIsAdjoint | cs231n/rnn_layers.py:368-406 | the gate and cell part of the step backward pass is the adjoint of the first-order change of `next_h` and `next_c` |
| Lstm.StepBackwardIsAdjoint | cs231n/rnn_layers.py:361-425 | `lstm_step_backward` is the adjoint of the first-order change of the step in all six inputs `x`, `prev_h`, `prev_c`, `Wx`, `Wh`, `b` |
| Lstm.Before | cs231n/rnn_layers.py:464-465 | step 0 starts from `h0` and an all-zero cell state; later steps start from the state the step before left |
| Lstm.Run | cs231n/rnn_layers.py:466-471 | the first `k` steps give `k` results, each with (N, H) states |
| Lstm.RunPrefix | cs231n/rnn_layers.py:466-471 | running fewer steps gives a prefix of the same results |
| Lstm.RunStep | cs231n/rnn_layers.py:467-469 | result `s` is `lstm_step_forward` on `x[:, s, :]` and the state the steps before it left |
| Lstm.Forward | cs231n/rnn_layers.py:459-477 | `h[:, t, :]` is the `next_h` of step `t`, and `cache[t]` is its cache; the cell state is not returned |
| Lstm.CachesChain | cs231n/rnn_layers.py:464-471 | cache 0 starts from `h0` and a zero cell; cache `s` starts from the `next_h` and `next_c` of step `s − 1`; and each reads `x[:, s, :]` |
| Lstm.InputWidth | cs231n/rnn_layers.py:501 | `D`, read from the cached `x`, is the row count of `Wx` and the width of every cached `x` |
| Lstm.StepAt | cs231n/rnn_layers.py:510-515 | the gradients of reverse-sweep step `t` have the step's shapes; their value is stated by SweepStep |
| Lstm.CarryH | cs231n/rnn_layers.py:504-514 | the carried `dprev_h` is (N, H); its value is stated by SweepAccumulate |
| Lstm.CarryC | cs231n/rnn_layers.py:505-514 | the carried `dprev_c` is (N, H); its value is stated by SweepAccumulate |
| Lstm.ParamsFrom | cs231n/rnn_layers.py:506-518 | the parameter totals are (D, 4H), (H, 4H) and (4H,); how each step adds to them is stated by SweepAccumulate |
| Lstm.AddParams | cs231n/rnn_layers.py:516-518 | each entry of a new total is the old total plus the step's gradient |
| Lstm.SweepStep | cs231n/rnn_layers.py:512-514 | step `t` is `lstm_step_backward(dh[:, t, :] + dprev_h, dprev_c)`, with the carries from step `t + 1` |
| Lstm.SweepAccumulate | cs231n/rnn_layers.py:513-518 | after step `t` the carries are its `dprev_h` and `dprev_c`, and the totals have its parameter gradients added |
| Lstm.ReverseStep | cs231n/rnn_layers.py:511-518 | one pass of the loop body keeps the sweep invariant, from `t + 1` to `t` |
| Lstm.Backward | cs231n/rnn_layers.py:500-525 | `dx[:, t, :]` is step `t`'s `dx`; `dh0` is the carry after step 0; `dWx`, `dWh` and `db` are the sums of the per-step gradients |
| SoftmaxLoss.TemporalSoftmaxLoss | cs231n/rnn_layers.py:604-620 | `dx` is (N, T, V) |
| SoftmaxLoss.GradientAt | cs231n/rnn_layers.py:611-618 | `dx[n][t][j]` is 0 where `mask[n][t]` is false; otherwise it is `(p − 1)/N` at the label and `p/N` elsewhere, where `p` is the probability at (n, t), j |
| SoftmaxLoss.MaskedRowIsZero | cs231n/rnn_layers.py:614 | a position whose mask is false gets an all-zero row in `dx` |
| SoftmaxLoss.GradRowSum | cs231n/rnn_layers.py:611-614 | a row of `dx_flat` sums to the mask bit times the probability row sum less 1, over N, so it sums to 0 whenever the probabilities sum to 1 |
| SoftmaxLoss.GradientRowSum | cs231n/rnn_layers.py:611-618 | the same at tensor position (n, t) of `dx` |
| SoftmaxLoss.MaskedLogSumIgnoresMasked | cs231n/rnn_layers.py:610 | rows whose mask is false do not enter the masked log-likelihood sum |
| SoftmaxLoss.MaskedPositionsIgnored | cs231n/rnn_layers.py:604-618 | changing the probabilities or the label at positions whose mask is false changes neither the loss nor `dx` |
| SoftmaxLoss.AllMaskedOff | cs231n/rnn_layers.py:610-614 | with every position masked off, the loss is 0 and every row of `dx` is zero |

## Left out

- `sigmoid`, `np.tanh`, `np.exp` and `np.log` are transcendental floating-point functions. Here they are parameters of type `real -> real`. Their numerically stable forms (the sign split in `sigmoid` and the max subtraction before `exp`) have no meaning over exact reals.
- Nothing claims that the analytic gradients equal the true derivatives of tanh, sigmoid or softmax. The adjoint lemmas cover the linear and polynomial parts, and they take the local-derivative factors `s·(1−s)` and `1−t²` as the source writes them.
- Floating-point rounding, overflow and NaN are not modelled. In particular, `0 · log(0)` at a masked position would be NaN in numpy; here it is 0.
- SoftmaxLoss.TemporalSoftmaxLoss takes the row-wise softmax of `x.reshape(N * T, V)` as a given (N·T, V) matrix `probs`. It states nothing about `probs` being a distribution. The row-sum lemma instead assumes a row that sums to 1.
- SoftmaxLoss.TemporalSoftmaxLoss requires N > 0: numpy would divide by zero, and Dafny's real division needs a non-zero divisor.
- Numpy's own shape checks, negative-index wrap-around and broadcasting errors are not modelled. Indices are required to lie in `0 <= idx < V`, and shapes are preconditions.
- `rnn_backward` and `lstm_backward` index `cache[0]`, so the model requires at least one time step.
- `rnn_step_backward` reads `next_h`, which its cache does not hold. The model adds the tanh output to the cache, as the hint next to that code suggests.
- The `verbose` print in `temporal_softmax_loss` is I/O and is not modelled.
- Arrays that numpy updates in place are mostly local sequences reassigned by the loops. Examples are `h[:, t, :] = next_h` and `dWx += …`. Only the embedding table is an `array`. Aliasing between numpy views is not modelled.
- Lstm.ParamsFrom, Lstm.CarryH, Lstm.CarryC, Lstm.StepAt and their VanillaRnn counterparts state only shapes in their own contracts. Their values (zero before the first step, then each step's carry and its added parameter gradients) are stated by SweepStep and SweepAccumulate.

## Findings

| source | as written | input that shows it | evidently intended | confidence | as-written member | corrected member |
|---|---|---|---|---|---|---|
| cs231n/rnn_layers.py:164 | `D = cache[0][1].shape[0]`; item 1 of the cache `(Wx, Wh, x, prev_h)` is `Wh`, so `D` becomes `H` | any input with D ≠ H, e.g. N = 1, T = 1, D = 1, H = 2: `dx` is allocated as (1, 1, 2), but the step's `dx` is (1, 1) | `D` is the row count of `Wx` (item 0), i.e. the width of `x` | high, not executed | VanillaRnn.AsWrittenInputWidthMismatch | VanillaRnn.InputWidth |
