# RL-Kernel verification model

A Dafny model of the parts of RL-Kernel where a fast form must agree with a simple one, and of the
protocols that move weights and scores between workers. Everything is proved for all inputs and,
for the protocols, over all runs.

**Kernels.** The streamed, tiled and sharded softmax kernels (flash attention forward and backward,
the chunked, tensor-parallel and fused LM-head log-probability ops with their backwards, the fused
ratio and KL op, the GRPO loss) are methods with the source's loops, tile widths and buffers. They are
proved equal to the naive reference ops of the repository. Arithmetic is over exact reals; `exp`, `log`
and `sqrt` are parameters constrained by `RealFns.Lawful`: `exp(a + b) = exp(a) exp(b)` and
`exp(a) >= 1 + a`, which together determine the exponential, and that `log` and `sqrt` invert it and
the square. Minus infinity is a value of its own (`Ext`), so that a running maximum can start there and
no expression can subtract it from itself. The references are tied down by laws of their own: what one
score, logit or loss is in terms of the inputs, and that every gradient is that of the forward that runs.

**Weight bridge.** The publish / import / acknowledge / reject / release lifecycle, the shared-memory
transport between any number of bridges, the rollout executor that drives a consumer bridge, and the
adapter that rebinds model parameters are state machines. Classes with the source's fields take exactly
the steps of those machines, and the invariants are proved over every run with a failure possible at
every step. Tensors are abstract values and checksums are injective; update ids are fresh.

**Allocators, traversal, alignment.** CUDA VMM packing with copy and read-back, the paged-KV block
table, the tensor-tree summary over an arbitrary object graph, and the path of rollout scores from
payload to training batch.

Where the code does less than its name or comments promise, the exact condition is proved:

- the attention kernels check no bounds: a query block that runs past a head stores into the next one, and
  a key block reads from it (`FlashForwardGrid.ForwardExactIff`, `FlashBackwardGrid.BackwardExactIff`,
  `TrainingStep.TrainingStepExactIff`);
- the fused LM-head backward may overwrite what it saved (`FusedTileBackward.SecondBackwardIff`);
- a comment in `standard_attn.py` says causal masking always leaves a query its own key; with more
  queries than keys it does not (`KvCache.CausalRowIsNaN`);
- the fused GRPO op clamps out-of-range actions that the native op refuses (`GrpoLoss.FusedForward`);
- `update_weights` and the release calls can leave executor and bridge disagreeing when a release
  raises (`RolloutState.UpdateKeepsIff`, `ReleaseKeepsIff`, `ReleaseUpdateKeepsIff`, `RunKeepsIff`);
- re-installing the active update is not always rolled back (`ParameterRebinding.ReinstallKeepsIff`), and a
  failed install can take the weights away that the executor reports as active
  (`WorkerWeights.RunAgreesIff`);
- a close() that raises, or a publication that does so after its snapshot, leaves shared-memory names behind
  (`SharedMemoryBridge.RunLeakFreeIff`);
- attaching a reward can lose a candidate's tokens, and the logps after it are then dropped, raise or go to
  other candidates (`RolloutAttachment.TokensSurviveIff`, `ScoresReturnIff`);
- attached scores can be hidden by nested ones or by another list (`RolloutRoundTrip.RewardsReturnIff`,
  `LogpsReturnIff`), and the logp match check can pass with unscored tokens
  (`RolloutAlignment.AcceptedIff`, `CoveredIff`).

`RealFunctions`, `Integers` and `Options` hold the shared arithmetic, sums and optional values.

## Model

| member | source | states |
|---|---|---|
| Softmax.LogSumExpMeaning | rl_engine/kernels/ops/pytorch/loss/linear_logp.py:227-278 | the maximum that every log-sum-exp subtracts cancels: exp(lse) is the plain sum of exponentials, for any row with a finite entry |
| Softmax.SoftmaxForms | rl_engine/kernels/ops/pytorch/attention/standard_attn.py:168-168 | softmax relative to the row maximum, relative to any other reference point, and as exp(z - lse) are one number |
| Softmax.SoftmaxSumsToOne | rl_engine/kernels/ops/pytorch/attention/standard_attn.py:168-168 | the weights of a row with a finite score are nonnegative and sum to one |
| Softmax.MaxIsMaximum | rl_engine/kernels/ops/triton/triton_attn.py:94-95 | the running maximum is an attained upper bound, and finite exactly when some score is |
| Softmax.FoldTileKeeps | rl_engine/kernels/ops/pytorch/loss/linear_logp.py:247-252 | one online-softmax tile, whatever its width, extends the exact (maximum, rescaled sum) state over the tile |
| Softmax.PaddedTileKeeps | rl_engine/kernels/ops/triton/loss/ratio_kl.py:46-62 | the same for a tile whose lanes past the row are minus infinity, starting from a maximum of minus infinity |
| Softmax.MaskedTail | rl_engine/kernels/ops/triton/loss/ratio_kl.py:47-49 | minus-infinity lanes past the row change neither its maximum nor any of its sums |
| Attention.AttendQuotient | rl_engine/kernels/ops/pytorch/attention/standard_attn.py:168-178 | softmax(scores) @ V is the weighted sum over the sum of weights, for any reference point |
| Attention.AttendRowPrefix | rl_engine/kernels/ops/pytorch/attention/standard_attn.py:149-178 | rows that agree on a prefix and are masked after it attend to the same value, NaN and fully masked rows included |
| Attention.ForwardHead | rl_engine/kernels/ops/pytorch/attention/standard_attn.py:134-149 | grouped-query attention: query head h reads KV head h / (Hq / Hkv), through repeat_interleave |
| AttentionMeaning.ScoreOfColumn | rl_engine/kernels/ops/triton/triton_attn.py:87-88 | rows that are zero outside one column score the product of their entries there, times the scale |
| AttentionMeaning.ScoreSubtracts | rl_engine/kernels/ops/pytorch/attention/standard_attn.py:153-153 | a score is linear in the query and symmetric in query and key, so with the law above it is the scaled dot product |
| AttentionMeaning.HeadElement | rl_engine/kernels/ops/pytorch/attention/standard_attn.py:143-178 | one output element of one head: the mean of the values of the keys that count, weighted by exp of the scaled dot products; a query without any gives zero under a padding mask and over an empty key axis, and NaN otherwise |
| AttentionMeaning.ForwardElement | rl_engine/kernels/ops/pytorch/attention/standard_attn.py:134-178 | every element of the op in terms of its tensors, for every mask, grouping of heads and scale: the one given, or the positive s with s * s * D = 1 |
| AttentionMeaning.ForwardFailsIff | rl_engine/kernels/ops/pytorch/attention/standard_attn.py:134-137 | the op refuses exactly the head counts that do not divide |
| AttentionMeaning.FlashIsNativeOp | rl_engine/kernels/ops/triton/triton_attn.py:335-390 | on the same tensors the flash launch, in any order of its programs, stores the elements of the native op whenever its blocks divide the length |
| KvCache.StepIsPrefillRows | rl_engine/kernels/ops/pytorch/attention/kv_cache.py:78-98 | one decode step returns the rows of the one-shot prefill at its positions, for every head, or its error |
| KvCache.RunIsPrefillRows | rl_engine/kernels/ops/pytorch/attention/kv_cache.py:94-98 | so does every run of decode steps, by induction over the chunks |
| KvCache.IncrementalDecodingIsPrefill | rl_engine/kernels/ops/pytorch/attention/kv_cache.py:94-161 | for every way of cutting the sequence into chunks, decoding chunk by chunk and concatenating is the one-shot causal prefill |
| KvCache.DecodeFailsIff | rl_engine/kernels/ops/pytorch/attention/kv_cache.py:78-98 | a decode step refuses exactly new keys or values of another length than its queries, and head counts that do not divide |
| KvCache.CausalRowIsNaN | rl_engine/kernels/ops/pytorch/attention/standard_attn.py:154-178 | without a padding mask a causal row is NaN if and only if it lies before every key (more queries than keys); the comment in the code says this cannot happen |
| FlashForward.StepKeeps | rl_engine/kernels/ops/triton/triton_attn.py:94-114 | one key block keeps the row invariant: M is the exact maximum, L the rescaled sum, and the accumulator is already normalized by L |
| FlashForward.LoopEndIsRoundUp | rl_engine/kernels/ops/triton/triton_attn.py:78-81 | the block loop ends at its bound rounded up to whole blocks |
| FlashForward.Program | rl_engine/kernels/ops/triton/triton_attn.py:39-131 | one program of the forward kernel, its last block running past the head or not: every row its block covers holds what that query attends to over the keys it reads, and no other row of the buffers or of the memory after them changes |
| FlashForward.KernelRowIsNaive | rl_engine/kernels/ops/triton/triton_attn.py:78-91 | the stored row is the naive masked softmax row, under a causal mask for every pair of block sizes (no visible key is skipped), otherwise when the key block divides the length |
| FlashForward.StoredStatsGiveWeights | rl_engine/kernels/ops/triton/triton_attn.py:126-131 | the saved M and L give each softmax weight as exp(s - M) / L, a number in [0, 1] |
| FlashForward.NaiveIsNativeOp | rl_engine/kernels/ops/pytorch/attention/standard_attn.py:143-178 | the naive row is the row of NativeAttentionOp on the same tensors, whatever memory follows them |
| LaunchGrid.RowIsCovered | rl_engine/kernels/ops/triton/triton_attn.py:39-49 | cdiv(seq_len, BLOCK_M) blocks per head cover every row of every head |
| LaunchGrid.OwnRow | rl_engine/kernels/ops/triton/triton_attn.py:41-49 | when the block size divides the length a program covers only rows of its own head |
| LaunchGrid.CoveredIff | rl_engine/kernels/ops/triton/triton_attn.py:355-355 | the rows a launch covers are exactly those below the start of the last head plus the length rounded up to whole blocks |
| FlashForwardGrid.Grid | rl_engine/kernels/ops/triton/triton_attn.py:352-390 | the launch over all heads, one buffer of rows for Out, L and M, programs in any order: each row of the buffers and of the memory after them ends as its last writer stored it, or untouched |
| FlashForwardGrid.RowsExactIff | rl_engine/kernels/ops/triton/triton_attn.py:80-131 | every row of every head comes out naive, for every input, memory and program order, if and only if there is one head or the query block divides the length, and the mask is causal or the key block divides the length |
| FlashForwardGrid.StoresInsideIff | rl_engine/kernels/ops/triton/triton_attn.py:116-131 | no store leaves the buffers, for every input and program order, if and only if the query block divides the length |
| FlashForwardGrid.ForwardExactIff | rl_engine/kernels/ops/triton/triton_attn.py:39-131 | both hold if and only if the query block divides the length and, unless the mask is causal, so does the key block |
| FlashForwardGrid.ChosenExactIff | rl_engine/kernels/ops/triton/triton_attn.py:352-390 | with the block sizes the wrapper chooses: if and only if 64 divides the length, and 128 does for unmasked heads of at most 64 columns |
| FlashForwardGrid.KeysRunOver | rl_engine/kernels/ops/triton/triton_attn.py:80-86 | an unmasked input whose length the key block does not divide: the naive output is zero and the stored one positive |
| FlashForwardGrid.NextHeadOverwritten | rl_engine/kernels/ops/triton/triton_attn.py:116-131 | an input whose length the query block does not divide: row 0 of head 1 ends with positive attention over head 0, where its own is zero |
| FlashForwardGrid.HundredTokens | rl_engine/kernels/ops/triton/triton_attn.py:352-390 | that input at 100 tokens, two heads, a causal mask and blocks of 64 |
| FlashBackward.SoftmaxVjp | rl_engine/kernels/ops/triton/triton_attn.py:293-300 | the softmax Jacobian applied to dP is P * (dP - row sum of P * dP) |
| FlashBackward.DeltaIsRowDot | rl_engine/kernels/ops/triton/triton_attn.py:176-182 | the row sum of O * dO is the row sum of P * dP |
| FlashBackward.PIsProb | rl_engine/kernels/ops/triton/triton_attn.py:286-293 | the probabilities recomputed from the saved M and L are the softmax weights |
| FlashBackward.DsIsDScore | rl_engine/kernels/ops/triton/triton_attn.py:297-300 | the recomputed dS is the score gradient times the scale |
| FlashBackward.MaskedPairIsZero | rl_engine/kernels/ops/triton/triton_attn.py:290-308 | a query before a key contributes exactly zero to all three gradients under the causal mask |
| FlashBackward.KeyGradients | rl_engine/kernels/ops/triton/triton_attn.py:251-311 | the row blocks a program skips add nothing: the sums over the rows it visits are the full dK and dV |
| FlashBackward.SkippedRowAddsZero | rl_engine/kernels/ops/triton/triton_attn.py:251-306 | the contribution of a block to a row its program skips would have been zero |
| AttentionGradient.QueryGradientIsVjp | rl_engine/kernels/ops/triton/triton_attn.py:297-306 | dQ is the vector-Jacobian product of the scores the forward forms: for every other query row, dS against the change of its scores is dQ against the change of its entries |
| AttentionGradient.KeyGradientIsVjp | rl_engine/kernels/ops/triton/triton_attn.py:297-309 | so is dK, for every other key row |
| AttentionGradient.ValueGradientIsExact | rl_engine/kernels/ops/triton/triton_attn.py:293-293 | dV is the gradient of the output, which is linear in the values: for all other values, dO against the change of the output is dV against the change of the values |
| AttentionGradient.WeightSupergradient | rl_engine/kernels/ops/triton/triton_attn.py:286-300 | the Jacobian behind dS is that of the forward's weights: log P is concave in the scores with supergradient onehot - P, for all other queries, keys and scales |
| FlashBackward.Program | rl_engine/kernels/ops/triton/triton_attn.py:223-330 | one program of the backward kernel, its blocks running past the head or not: the rows of DK and DV its block covers, its additions to every row of DQ its loop visits, and nothing else |
| FlashBackward.QueryGradient | rl_engine/kernels/ops/triton/triton_attn.py:302-306 | the contributions of all key blocks to a row of dQ are the full dQ |
| FlashBackwardGrid.Preprocess | rl_engine/kernels/ops/triton/triton_attn.py:135-182 | _bwd_preprocess over all heads, in any order: every row the launch covers holds the row sum of O * dO, the memory after them is unchanged |
| FlashBackwardGrid.DeltaIsReady | rl_engine/kernels/ops/triton/triton_attn.py:176-182 | every head then finds the row sums of P * dP |
| FlashBackwardGrid.AnyOrderSum | rl_engine/kernels/ops/triton/triton_attn.py:302-306 | additions to dQ in any order of the programs give the sum over all of them |
| FlashBackwardGrid.PartsOfHead | rl_engine/kernels/ops/triton/triton_attn.py:302-306 | over a whole run of all heads' programs, the parts of one head are its own block sums |
| FlashBackwardGrid.Grid | rl_engine/kernels/ops/triton/triton_attn.py:396-469 | preprocess and backward launch over all heads, each in its own order: every row of DQ, DK and DV, and of the memory after them |
| FlashBackwardGrid.GradsComeOutRight | rl_engine/kernels/ops/triton/triton_attn.py:223-330 | when the block size divides the length, every row of every head holds the softmax vector-Jacobian product for q, k and v, in every order |
| FlashBackwardGrid.BackwardExactIff | rl_engine/kernels/ops/triton/triton_attn.py:396-469 | all gradients are right, for everything saved, every incoming gradient, memory and order, if and only if the block size divides the length |
| FlashBackwardGrid.GradStoresInsideIff | rl_engine/kernels/ops/triton/triton_attn.py:135-330 | no store of the preprocess or of the backward programs leaves the buffers, for everything saved and every order, if and only if the block size divides the length |
| FlashBackwardGrid.TailIsWrong | rl_engine/kernels/ops/triton/triton_attn.py:274-311 | an input whose length the block does not divide: a value gradient of head 0 is positive where the reference is zero |
| TrainingStep.TrainingStepIsRight | rl_engine/kernels/ops/triton/triton_attn.py:335-471 | forward and backward launches together, each in any order: when the blocks divide the length every row holds its naive attention and the gradients computed from what was saved, and nothing after the buffers changes |
| TrainingStep.TrainingStepExactIff | rl_engine/kernels/ops/triton/triton_attn.py:335-471 | that holds for every input, memory, incoming gradient and pair of orders if and only if the forward query block divides the length, so does its key block unless the mask is causal, and so does the backward block |
| TrainingStep.ChosenStepExactIff | rl_engine/kernels/ops/triton/triton_attn.py:352-404 | with the block sizes the wrapper chooses: if and only if 64 divides the length, and 128 does for unmasked heads of at most 64 columns |
| VocabPartition.SortKeeps | rl_engine/kernels/ops/pytorch/loss/linear_logp.py:112-112 | sorting the gathered ranges keeps what they cover and how often |
| VocabPartition.Scan | rl_engine/kernels/ops/pytorch/loss/linear_logp.py:112-123 | the scan of the sorted ranges accepts exactly the non-empty, disjoint, gap-free covers of [0, V) |
| VocabPartition.Validate | rl_engine/kernels/ops/pytorch/loss/linear_logp.py:98-144 | for any ranks in any order the check accepts if and only if the ranges partition [0, V) and every declared size is V, and returns that V |
| VocabPartition.PartitionMeaning | rl_engine/kernels/ops/pytorch/loss/linear_logp.py:112-125 | a partition is: no empty range, no id owned twice, and the owned ids are exactly [0, V) |
| VocabPartition.PartitionSums | rl_engine/kernels/ops/pytorch/loss/linear_logp.py:278-293 | sums over the ranges of a partition add up to the sum over [0, V) |
| LinearLogp.TileStepKeeps | rl_engine/kernels/ops/pytorch/loss/linear_logp.py:237-263 | one vocabulary tile keeps the running maximum, sum, target logit and owner count of a shard |
| LinearLogp.ChunkedLocalStats | rl_engine/kernels/ops/pytorch/loss/linear_logp.py:214-263 | for every chunk budget the streamed statistics are those of the whole shard |
| LinearLogp.StreamedLocal | rl_engine/kernels/ops/pytorch/loss/linear_logp.py:429-429 | max + log(sum) of a shard is the log of its exponential mass, and its target term the target logit if it owns it |
| LinearLogp.MergedIsNative | rl_engine/kernels/ops/pytorch/loss/linear_logp.py:266-293 | merging the per-rank pairs gives the unsharded target logit minus log-sum-exp, for every partition |
| LinearLogp.OwnerTotalIsOwners | rl_engine/kernels/ops/pytorch/loss/linear_logp.py:418-427 | the reduced owner count is the number of shards owning the target |
| LinearLogp.TensorParallelForward | rl_engine/kernels/ops/pytorch/loss/linear_logp.py:380-440 | the sharded forward returns a value exactly when the partition is accepted and (if checked) the targets are in range, and then the log-probabilities and log-sum-exps of the unsharded head |
| LinearLogpBackward.ChunkedBackward | rl_engine/kernels/ops/pytorch/loss/linear_logp.py:335-374 | for every chunk budget the accumulated buffers are the whole-batch products, on one device and on one rank |
| LinearLogpBackward.ChunkedIsReference | rl_engine/kernels/ops/pytorch/loss/linear_logp.py:546-583 | those products are the g * (onehot - softmax) gradients of the whole batch |
| LinearLogpBackward.OneDeviceBackward | rl_engine/kernels/ops/pytorch/loss/linear_logp.py:510-583 | chunked_linear_logp_backward computes them for every chunk budget |
| LinearLogpBackward.ShardDz | rl_engine/kernels/ops/pytorch/loss/linear_logp.py:346-352 | on a shard, dz from the saved global log-sum-exp is the unsharded dz over its range |
| LinearLogpBackward.ShardWeightGradient | rl_engine/kernels/ops/pytorch/loss/linear_logp.py:354-366 | a shard's weight and bias gradients are the rows of the unsharded ones |
| LinearLogpBackward.ShardHiddenGradient | rl_engine/kernels/ops/pytorch/loss/linear_logp.py:354-371 | a shard's hidden gradient is the unsharded sum restricted to its range |
| LinearLogpBackward.TensorParallelBackward | rl_engine/kernels/ops/pytorch/loss/linear_logp.py:296-374 | under an accepted partition the summed hidden gradients and the concatenated weight and bias gradients are the unsharded ones |
| LinearLogpBackward.DzIsSupergradient | rl_engine/kernels/ops/pytorch/loss/linear_logp.py:557-562 | onehot - softmax is the gradient: for every other head and hidden state logp lies on or below the tangent plane it defines |
| LinearLogpBackward.LseAboveTangent | rl_engine/kernels/ops/pytorch/loss/linear_logp.py:658-664 | log-sum-exp lies above the tangent plane given by the softmax weights |
| LinearLogpBackward.DzSumsToZero | rl_engine/kernels/ops/pytorch/loss/linear_logp.py:557-562 | every dz row sums to zero over the vocabulary |
| LinearLogpGradient.LogitOfColumn | rl_engine/kernels/ops/pytorch/loss/linear_logp.py:37-49 | a hidden state that is zero outside one column gives logit h[d] * weight[j][d] + bias[j] |
| LinearLogpGradient.DotSubtracts | rl_engine/kernels/ops/pytorch/loss/linear_logp.py:44-47 | and the product is linear in the hidden state |
| LinearLogpGradient.HiddenSupergradient | rl_engine/kernels/ops/pytorch/loss/linear_logp.py:546-583 | the hidden gradient is the gradient of the op: for every other hidden state the weighted log-probability changes by at most the inner product with it |
| LinearLogpGradient.WeightSupergradient | rl_engine/kernels/ops/pytorch/loss/linear_logp.py:546-583 | so are the weight and bias gradients of a whole batch, for every other head of the same shape |
| LinearLogpKernel.TileDots | rl_engine/kernels/ops/triton/loss/linear_logp.py:59-73 | for every hidden tile width each lane ends with its full dot product, masked loads adding zero |
| LinearLogpKernel.TargetKeeps | rl_engine/kernels/ops/triton/loss/linear_logp.py:78-79 | exactly one lane of one tile adds the target's logit |
| LinearLogpKernel.ForwardRow | rl_engine/kernels/ops/triton/loss/linear_logp.py:48-89 | for every vocabulary and hidden tile width one row stores the native log-probability and log-sum-exp; an out-of-range target scores as zero |
| LinearLogpKernel.Forward | rl_engine/kernels/ops/triton/loss/linear_logp.py:42-89 | the launch over blocks of rows, the last one masked, does so for every row |
| FusedTileBackward.VocabTile | rl_engine/kernels/ops/cuda/loss/linear_logp.py:102-110 | the tile width is at least one, at most V for V >= 1, and the requested one when that is usable |
| FusedTileBackward.ToDlogits | rl_engine/kernels/ops/cuda/loss/linear_logp.py:387-394 | the elementwise contract of the extension kernel on a column window, also when source and destination are one buffer |
| FusedTileBackward.MmStarts | rl_engine/kernels/ops/cuda/loss/linear_logp.py:396-399 | the first tile's mm starts the hidden gradient |
| FusedTileBackward.AddmmExtends | rl_engine/kernels/ops/cuda/loss/linear_logp.py:400-406 | every later addmm extends it by its tile |
| FusedTileBackward.TransposedFills | rl_engine/kernels/ops/cuda/loss/linear_logp.py:407-412 | the transposed product of a tile is its slice of the weight gradient |
| FusedTileBackward.TiledBackward | rl_engine/kernels/ops/cuda/loss/linear_logp.py:360-412 | for every tile width, with a reused workspace, an odd last tile and the in-place single tile, the two gradients are the untiled products; the saved logits are unchanged, or hold dlogits when one tile covers the vocabulary |
| FusedTileBackward.SecondEntryIff | rl_engine/kernels/ops/cuda/loss/linear_logp.py:379-394 | an entry of dlogits comes out the same from the overwritten logits if and only if there was more than one tile, its gradient is zero, or dlogits equals the logit |
| FusedTileBackward.SecondBackwardIff | rl_engine/kernels/ops/cuda/loss/linear_logp.py:353-412 | a second backward gives the same gradients, for everything a forward pass can save, if and only if the vocabulary takes more than one tile |
| FusedTileBackward.TiledIsReference | rl_engine/kernels/ops/cuda/loss/linear_logp.py:475-527 | those products are the reference gradients, restricted to the shard in the tensor-parallel twin |
| RatioKl.ForwardProgram | rl_engine/kernels/ops/triton/loss/ratio_kl.py:38-84 | for every tile width the two-stream online softmax stores ratio, KL, log-ratio and policy log-sum-exp of the whole rows; inactive tokens store (1, 0, 0, 0) |
| RatioKl.FusedIsNative | rl_engine/kernels/ops/pytorch/loss/ratio_kl.py:40-58 | for active actions in the vocabulary this is the native (ratio, KL); masked tokens give (1, 0) whatever they hold |
| RatioKl.KlIsNonNegative | rl_engine/kernels/ops/triton/loss/ratio_kl.py:71-72 | every KL term is nonnegative, and zero exactly when the two log-probabilities agree |
| RatioKl.RatioAndKlMeaning | rl_engine/kernels/ops/pytorch/loss/ratio_kl.py:40-58 | the ratio is the action's policy probability over the one it was sampled with, and kl is r - log r - 1 for r the reference probability over the policy's |
| RatioKlBackward.BackwardProgram | rl_engine/kernels/ops/triton/loss/ratio_kl.py:103-122 | for every tile width an active row becomes c * (onehot - softmax), and all other rows stay as they were |
| RatioKlBackward.ActiveRowSumsToZero | rl_engine/kernels/ops/triton/loss/ratio_kl.py:117-121 | each active row's gradient sums to zero over the vocabulary |
| RatioKlBackward.CoefficientsAreSlopes | rl_engine/kernels/ops/triton/loss/ratio_kl.py:111-113 | ratio and 1 - exp(d) are the slopes of the two outputs in the policy log-probability |
| RatioKlBackward.CoefficientIsChainRule | rl_engine/kernels/ops/triton/loss/ratio_kl.py:111-113 | from what the forward stored, the coefficient is the slope of g_ratio * ratio + g_kl * kl in the policy log-probability of the action: moving it by any u stays on or above that tangent |
| RatioKlBackward.RowIsSupergradient | rl_engine/kernels/ops/triton/loss/ratio_kl.py:113-121 | the stored row is the gradient of coefficient times log-probability: for every other policy row it changes by at most the inner product with it |
| RatioKlBackward.SelectedLogpSupergradient | rl_engine/kernels/ops/triton/loss/ratio_kl.py:113-120 | onehot - softmax is the gradient of the selected log-probability in the logits |
| GroupStatistics.StdsAgree | rl_engine/kernels/ops/triton/loss/grpo_loss.py:49-52 | for eps > 0 clamping the root at eps equals taking the root of the variance clamped at eps squared |
| GroupStatistics.VarianceIsNonNegative | rl_engine/kernels/ops/pytorch/loss/grpo_loss.py:80-81 | E[x^2] - E[x]^2 is never negative |
| GroupStatistics.AdvantagesSumToZero | rl_engine/kernels/ops/triton/loss/grpo_loss.py:44-54 | the advantages of every group sum to zero |
| GroupStatistics.AdvantageSquares | rl_engine/kernels/ops/triton/loss/grpo_loss.py:44-54 | their squares sum to at most the group size, and to exactly it if and only if the variance is at least eps squared |
| GroupStatistics.AdvantageOrder | rl_engine/kernels/ops/triton/loss/grpo_loss.py:44-54 | within a group advantages are ordered as the rewards are |
| GroupLayout.NextPow2IsLeast | rl_engine/kernels/ops/triton/loss/grpo_loss.py:14-15 | the block width is the least power of two that holds the largest group |
| GroupLayout.CutsFromBounds | rl_engine/kernels/ops/triton/loss/grpo_loss.py:102-137 | accepted offsets cut [0, n) into nonempty groups no larger than the reported maximum |
| GroupLayout.IdsMatchBounds | rl_engine/kernels/ops/pytorch/loss/grpo_loss.py:171-206 | whatever the fused builder accepts the native resolver accepts, and numbers the sequences by those offsets |
| GroupLayout.BoundsAcceptIff | rl_engine/kernels/ops/triton/loss/grpo_loss.py:102-137 | the fused builder accepts exactly what the native resolver accepts, less boundaries not starting at zero and groups above 1024 |
| GroupLayout.GroupsAre | rl_engine/kernels/ops/pytorch/loss/grpo_loss.py:171-206 | with samples per prompt sequence i is in group i / s; with boundaries from zero, in the group whose boundaries enclose it |
| GroupLayout.AcceptsGroupingIff | rl_engine/kernels/ops/pytorch/loss/grpo_loss.py:171-206 | the native op accepts samples per prompt of at least two that divide the batch, or at least two strictly increasing boundaries that span it, and not both |
| GroupLayout.GroupsHoldAtMost1024 | rl_engine/kernels/ops/triton/loss/grpo_loss.py:102-137 | the fused builder refuses a grouping that starts at zero exactly when some group holds more than 1024 sequences |
| GroupAdvantages.IndexAdd | rl_engine/kernels/ops/pytorch/loss/grpo_loss.py:72-78 | index_add_ on zeros leaves every group's sum |
| GroupAdvantages.NativeAdvantages | rl_engine/kernels/ops/pytorch/loss/grpo_loss.py:62-84 | the native advantages, from the accumulated counts, sums and squares |
| GroupAdvantages.GroupNormProgram | rl_engine/kernels/ops/triton/loss/grpo_loss.py:31-55 | one program normalizes its own group for any block that holds it, padding lanes with zeros, and writes nothing else |
| GroupAdvantages.FusedAdvantages | rl_engine/kernels/ops/triton/loss/grpo_loss.py:139-165 | the launch returns the builder's error, or every sequence's advantage within its group |
| GroupAdvantages.FusedIsNative | rl_engine/kernels/ops/triton/loss/grpo_loss.py:31-55 | that advantage is the native one, for every grouping the fused op accepts and eps > 0 |
| GrpoLoss.FusedForward | rl_engine/kernels/ops/triton/loss/grpo_loss.py:216-245 | the fused forward, for every tile width: wherever it accepts the grouping it returns the native loss, policy loss and KL if and only if the active actions are in the vocabulary |
| GrpoLoss.NativeForward | rl_engine/kernels/ops/pytorch/loss/grpo_loss.py:127-160 | the native forward, checking the grouping before the actions |
| GrpoLoss.KlMeanIsNonNegative | rl_engine/kernels/ops/pytorch/loss/grpo_loss.py:114-125 | the mean KL is nonnegative, so with beta >= 0 the loss is at least the policy loss |
| GrpoLoss.SurrogateIsPessimistic | rl_engine/kernels/ops/pytorch/loss/grpo_loss.py:117-121 | the clipped term is never below the unclipped one, and its reward is capped at (1 + eps) adv or (1 - eps) adv |
| GrpoMeaning.OneSidedClip | rl_engine/kernels/ops/pytorch/loss/grpo_loss.py:119-121 | the clipped surrogate is the advantage times the ratio capped on one side: above for a good sequence, below for a bad one |
| GrpoMeaning.ReturnsIff | rl_engine/kernels/ops/pytorch/loss/grpo_loss.py:127-160 | losses are returned exactly when the grouping is accepted and every active action is an index of the vocabulary; the grouping is checked first |
| GrpoMeaning.LossesAreMeans | rl_engine/kernels/ops/pytorch/loss/grpo_loss.py:114-125 | with some active token, the policy loss is minus the mean over the active tokens of that capped ratio times the advantage of the token's own sequence, the KL loss is the mean KL term, and the loss adds beta times it |
| GrpoMeaning.OnPolicyLoss | rl_engine/kernels/ops/pytorch/loss/grpo_loss.py:114-125 | on policy it is minus the mean advantage: each sequence weighs in with its own advantage and number of active tokens |
| GrpoMeaning.OneSequenceLoss | rl_engine/kernels/ops/pytorch/loss/grpo_loss.py:114-125 | when one sequence holds all active tokens the policy loss is its own, and is bounded by the clip |
| GrpoMeaning.NoActiveTokens | rl_engine/kernels/ops/pytorch/loss/grpo_loss.py:114-125 | without an active token every loss is zero |
| TensorTree.Visitor.Visit | rl_engine/executors/stateless_executor.py:416-434 | one visit of the depth-first search: it terminates, counts exactly the newly seen tensors and their bytes, and leaves the newly seen set closed under children |
| TensorTree.SeenIsReachable | rl_engine/executors/stateless_executor.py:418-432 | a closed set of reached objects holds exactly the reachable tensors |
| TensorTree.ListedIsReached | rl_engine/executors/stateless_executor.py:426-431 | every value of a mapping, item of a list or tuple and attribute of an object is reached from it, with all it reaches |
| TensorTree.ReachedIsListed | rl_engine/executors/stateless_executor.py:424-433 | whatever else an object reaches is reached from something it lists; a tensor, None and an opaque object list nothing |
| TensorTree.OneTensor | rl_engine/executors/stateless_executor.py:424-425 | a tensor reaches only itself and weighs its own bytes |
| TensorTree.Summarize | rl_engine/executors/stateless_executor.py:411-437 | on every finite object graph, shared or cyclic, the summary is the number and total bytes of the distinct tensors reachable from the root |
| BridgeState.EveryRunKeepsInv | rl_engine/executors/bridge.py:1527-1623 | over every run, failing calls included: published records have no imports, imported and acknowledged ones have some, and a set active id names an acknowledged record of the active version |
| BridgeState.RejectedStaysRejected | rl_engine/executors/bridge.py:1592-1614 | a rejected update stays rejected, and every import or acknowledgement of it raises, until it is released |
| BridgeState.PublishedVersionsIncrease | rl_engine/executors/bridge.py:1527-1571 | the versions of the published updates strictly increase along every run |
| BridgeState.ActiveChangesOnlyBy | rl_engine/executors/bridge.py:1592-1623 | the active pair changes only by a successful acknowledgement or the release of the active update; a call that raises changes nothing |
| BridgeState.PublishGoesThroughIff | rl_engine/executors/bridge.py:1527-1571 | a publication goes through exactly when its layout is supported, its version is above every published one and it has tensors |
| BridgeState.RejectGoesThroughIff | rl_engine/executors/bridge.py:1609-1614 | a rejection goes through exactly when the record is held and not acknowledged |
| BridgeState.ImportGoesThroughIff | rl_engine/executors/bridge.py:1573-1590 | an import goes through exactly when the record is held and neither rejected nor released, the layout is supported, transport, version and tensors are the record's, and the stored tensors still are those; it then counts one import and changes nothing else |
| BridgeState.AcknowledgeGoesThroughIff | rl_engine/executors/bridge.py:1592-1607 | an acknowledgement goes through exactly when the record is held, neither rejected nor released, was imported, and its tensors still are those it describes |
| BridgeState.PublishedUpdateActivates | rl_engine/executors/bridge.py:1527-1607 | publish, import and acknowledge of an update with a newer version make it the active one |
| LocalBridge.LocalTensorCopyBridge.Publish | rl_engine/executors/bridge.py:1527-1571 | the class method takes the lifecycle step, and keeps private clones equal to the manifest |
| LocalBridge.LocalTensorCopyBridge.ImportUpdate | rl_engine/executors/bridge.py:1573-1590 | the same for import, which returns exactly the published tensors |
| LocalBridge.LocalTensorCopyBridge.Acknowledge | rl_engine/executors/bridge.py:1592-1607 | the same for acknowledge |
| LocalBridge.LocalTensorCopyBridge.Reject | rl_engine/executors/bridge.py:1609-1614 | the same for reject |
| LocalBridge.LocalTensorCopyBridge.Release | rl_engine/executors/bridge.py:1616-1623 | the same for release |
| SharedMemoryBridge.EveryRunKeepsWorld | rl_engine/executors/bridge.py:1713-1991 | over every run of any number of bridges, with failing snapshots, publications that raise after one and raising close() calls: equal segment and record tables, every lifecycle invariant, every segment of an owned update linked, in its publisher's table and never unlinked, and every unlinked one unlinked exactly once, by its publisher |
| SharedMemoryBridge.UnlinkedExactlyOnce | rl_engine/executors/bridge.py:1869-1882 | along a run that meets that condition, every segment of an update its publisher has released has been unlinked exactly once, by the publisher only |
| SharedMemoryBridge.RunLeakFreeIff | rl_engine/executors/bridge.py:1734-1882 | no segment outlives its update over a run if and only if in every publisher's release and every rolled-back snapshot no close() but the last raises, and no publication raises once its snapshot is complete |
| SharedMemoryBridge.UndescribedLeaks | rl_engine/executors/bridge.py:1734-1743 | a publication that raises while it describes a complete snapshot leaves every segment of it linked, with no record to release |
| SharedMemoryBridge.RolledBackIff | rl_engine/executors/bridge.py:1812-1841 | a failed snapshot unlinks every segment it made if and only if no close() before the last finished segment raises and the failing one's own returns |
| SharedMemoryBridge.RaisingCloseLeaks | rl_engine/executors/bridge.py:1874-1882 | two tensors and a first close() that raises: the release leaves the second name linked for good |
| SharedMemoryBridge.ImportedIsManifest | rl_engine/executors/bridge.py:1852-1867 | an import that returns has read back exactly the tensors of the manifest |
| SharedMemoryBridge.ImportAttachesIff | rl_engine/executors/bridge.py:1884-1990 | a bridge that does not hold the id imports a manifest exactly when it is of the shared-memory transport with a supported layout, names a segment per tensor, and every one is linked and reads what the manifest says; otherwise nothing is attached |
| SharedMemoryBridge.PublishedIsImported | rl_engine/executors/bridge.py:1770-1850 | a published update can be imported by every other party, with the published tensors |
| SharedMemoryTransport.SharedMemoryTensorBridge.Publish | rl_engine/executors/bridge.py:1713-1768 | the class method takes the world step: core, segment table and shared memory, a failing snapshot and a failure after it included |
| SharedMemoryTransport.SharedMemoryTensorBridge.TakeSnapshot | rl_engine/executors/bridge.py:1770-1850 | the snapshot creates one linked segment per tensor with its bytes; one that fails at any tensor unlinks what it created, up to the first close() that raises |
| SharedMemoryTransport.SharedMemoryTensorBridge.ImportUpdate | rl_engine/executors/bridge.py:1852-1867 | attach if unknown, then import, returning the aliases kept in the segment table |
| SharedMemoryTransport.SharedMemoryTensorBridge.AttachManifest | rl_engine/executors/bridge.py:1884-1990 | attach: the record and its segments, or an error leaving the state as it was |
| SharedMemoryTransport.SharedMemoryTensorBridge.Release | rl_engine/executors/bridge.py:1869-1882 | release drops record and segments, and the publisher unlinks them in table order, until a close() raises |
| RolloutState.FailedUpdateKeepsActive | rl_engine/executors/rollout.py:54-87 | an update that fails in import, install or acknowledge leaves the active version, id and weights untouched in executor and bridge, and is held as rejected |
| RolloutState.SwitchesIff | rl_engine/executors/rollout.py:70-80 | an activation goes through if and only if the record, the manifest, what the tensors hold and the install call say so: the condition in terms of the inputs |
| RolloutState.UpdateKeepsIff | rl_engine/executors/rollout.py:54-87 | update_weights keeps the agreement of executor and bridge in all cases but one: the update switches and the adapter raises while releasing the superseded one |
| RolloutState.SupersededStays | rl_engine/executors/rollout.py:84-85 | from the idle state, two updates and an adapter that cannot release the first leave both acknowledged |
| RolloutState.ReleaseKeepsIff | rl_engine/executors/rollout.py:89-98 | release_weights keeps it unless the bridge raises after dropping the active record |
| RolloutState.ReleaseUpdateKeepsIff | rl_engine/executors/rollout.py:100-107 | release_weight_update keeps it under the same condition |
| RolloutState.ForgottenUpdate | rl_engine/executors/rollout.py:89-107 | from the idle state, an update and a release whose bridge raises leave the executor naming an update the bridge has dropped, through either release call |
| RolloutState.RunKeepsIff | rl_engine/executors/rollout.py:54-107 | throughout a run executor and bridge agree on the active update and hold nothing but it and rejected updates if and only if every call, in the state it meets, is outside those failing cases |
| RolloutState.EveryRunKeepsExec | rl_engine/executors/rollout.py:54-107 | over every run whose release steps complete, executor and bridge agree on the active update, and every held record is the acknowledged active one or rejected |
| RolloutState.OlderUpdateMayActivateLater | rl_engine/executors/bridge.py:1592-1607 | the active version is not monotone: any supported update, older ones included, can become active |
| RolloutExecutor.ConsumerBridge.ImportUpdate | rl_engine/executors/bridge.py:1852-1867 | a consumer's import: attach, then the lifecycle step |
| RolloutExecutor.ConsumerBridge.Release | rl_engine/executors/bridge.py:1616-1623 | a release that raises has already dropped the record |
| RolloutExecutor.RolloutExecutor.UpdateWeights | rl_engine/executors/rollout.py:54-87 | the class method takes the state-machine step: a switch is complete or leaves version, id and weights in place, and the class invariant survives under the exact condition |
| RolloutExecutor.RolloutExecutor.ReleaseWeights | rl_engine/executors/rollout.py:89-98 | no update is active afterwards unless a release raises; the class invariant survives under the exact condition |
| RolloutExecutor.RolloutExecutor.ReleaseWeightUpdate | rl_engine/executors/rollout.py:100-107 | the same for release_weight_update |
| ParameterRebinding.RebindKeeps | rl_engine/executors/bridge.py:561-581 | at every point of the rebinding loop each rebound parameter has its original saved, and the others are untouched |
| ParameterRebinding.FailedOnWorker | rl_engine/executors/bridge.py:595-610 | an install that raises on the worker puts back the originals of exactly the parameters it had rebound |
| ParameterRebinding.ReleaseKeeps | rl_engine/executors/bridge.py:719-745 | releasing the active update restores every original; releasing another changes no parameter |
| ParameterRebinding.InstallKeeps | rl_engine/executors/bridge.py:647-683 | installing an update that is not the active one either binds exactly the parameters it names, or raises with every parameter back on its original storage |
| ParameterRebinding.RebindIff | rl_engine/executors/bridge.py:563-579 | rebinding goes through if and only if every imported tensor that names a parameter has its shape and dtype |
| ParameterRebinding.ReboundShapes | rl_engine/executors/bridge.py:563-579 | that is, when no tensor differs in shape or dtype from the parameter it names; and no parameter ever changes its own |
| ParameterRebinding.ReinstallOutcome | rl_engine/executors/bridge.py:595-683 | what re-installing the active update leaves: nothing changed when it is refused or its import fails; the attributes gone and what it had rebound restored when the worker does not take it; everything restored when it is released as incomplete; else each parameter it names on its alias and the others where they were |
| ParameterRebinding.ReinstallKeepsIff | rl_engine/executors/bridge.py:595-683 | that keeps the binding invariant exactly when it is refused, its import fails, or the worker takes it and it is released as incomplete or covers every parameter bound so far; and it is transactional, as any other install is, in the same cases but for a failed import, after which the update stays active |
| ParameterRebinding.ReinstallLosesParameter | rl_engine/executors/bridge.py:559-586 | an idle adapter, one install and a second one of the same update that leaves a parameter out: the parameter stays on the old alias |
| ParameterRebinding.EveryRunKeepsParameters | rl_engine/executors/bridge.py:557-745 | over every run that never re-installs the active update, each parameter holds its original storage or the active update's alias, also when worker-side releases raise |
| ExternalStorageAdapter.WorkerModel.Install | rl_engine/executors/bridge.py:550-612 | the install function rebinds in place, with its rollback, as the state function says |
| ExternalStorageAdapter.WorkerModel.Release | rl_engine/executors/bridge.py:719-745 | release_worker restores in place, as the state function says |
| ExternalStorageAdapter.ExternalStorageAdapter.Install | rl_engine/executors/bridge.py:647-683 | the adapter's install: release the previous update, install on the worker, release again when tensors are missing; a new update is installed transactionally |
| ExternalStorageAdapter.ExternalStorageAdapter.Release | rl_engine/executors/bridge.py:685-693 | the adapter's release keeps the class invariant and gives the active update's parameters their own storage back |
| WorkerWeights.StepAgreesIff | rl_engine/executors/rollout.py:54-107 | executor and adapter together: a call keeps the worker's parameters on the executor's active update if and only if it is a complete switch, fails before the previous update is released, has nothing to lose, or is a safe re-install or a completed release |
| WorkerWeights.OtherTransportsAreRefused | rl_engine/executors/bridge.py:647-657 | a manifest of another transport than cuda-vmm, or of an unsupported layout, leaves the worker as it was |
| WorkerWeights.RunAgreesIff | rl_engine/executors/bridge.py:647-693 | throughout a run the worker's parameters are those of the executor's active update if and only if every call of the run is safe in that sense |
| WorkerWeights.FailedInstallLosesWorker | rl_engine/executors/bridge.py:658-668 | a second update whose tensor does not fit: the worker is back on its own storage while the executor still reports the first update as active |
| CudaVmmPacking.Pack | rl_engine/executors/bridge.py:1477-1505 | packing succeeds exactly when every tensor is on CUDA, holds the tensors in order, and lays them out 256-aligned, consecutive and without overlap |
| CudaVmmPacking.TensorsInAppends | rl_engine/executors/bridge.py:1477-1505 | what is packed are the CUDA tensors of the state dict, each under its name with its bytes, in its order |
| CudaVmmPacking.InOrder | rl_engine/executors/bridge.py:1493-1504 | any two packed intervals are disjoint, the earlier one first, and lie below the total |
| CudaVmmPacking.PackingWaste | rl_engine/executors/bridge.py:1493-1504 | the total is between the sum of sizes and that plus 255 bytes per tensor after the first |
| CudaVmmPacking.MappedBytes | rl_engine/executors/bridge.py:1207-1213 | the mapping is at least one granule, a multiple of the granularity, holds the request, and exceeds it by less than a granule unless it is one granule |
| CudaVmmPacking.CopyAll | rl_engine/executors/bridge.py:2060-2069 | after the copy loop every tensor's bytes stand at its offset |
| CudaVmmPacking.PublishAndRead | rl_engine/executors/bridge.py:2317-2327 | for every state dict, granularity and initial content, reading every (offset, nbytes) entry returns exactly the tensor published under that name; a non-CUDA tensor or an empty dict raises |
| PagedKv.FillTable | rl_engine/executors/paged_kv_baseline.py:215-231 | the cursor loop gives every row a run of consecutive blocks and -1 after it |
| PagedKv.Reserve | rl_engine/executors/paged_kv_baseline.py:183-257 | the reservation, with its errors: an empty sequence, or a pool smaller than required |
| PagedKv.CountIsMarks | rl_engine/executors/paged_kv_baseline.py:188-190 | a sequence's length is the number of marks in its attention mask |
| PagedKv.WidthIsLongest | rl_engine/executors/paged_kv_baseline.py:214-221 | the table is as wide as the longest run, no wider |
| PagedKv.EntriesAreDistinct | rl_engine/executors/paged_kv_baseline.py:223-231 | no block is given out twice |
| PagedKv.TableUsesExactly | rl_engine/executors/paged_kv_baseline.py:192-231 | the non-negative entries are exactly the blocks [0, required) |
| PagedKv.AddressInBounds | rl_engine/executors/paged_kv_baseline.py:192-231 | every token has a block inside the reserved pool and a slot inside the block |
| PagedKv.AddressesAreDistinct | rl_engine/executors/paged_kv_baseline.py:192-231 | no two tokens share an address |
| PagedKv.AddressesAreConsecutive | rl_engine/executors/paged_kv_baseline.py:192-231 | tokens fill their blocks in order: the next token takes the next slot, or slot zero of the next block |
| PagedKv.WasteIsUnderABlock | rl_engine/executors/paged_kv_baseline.py:196-201 | rounding wastes less than one block per sequence |
| RolloutInputs.Build | rl_engine/executors/training_contract.py:386-451 | the dense inputs: every cell of input_ids, attention_mask and completion_mask, or the error the configuration or payload calls for |
| RolloutInputs.ScoreReference | rl_engine/executors/stateless_executor.py:212-253 | scoring raises exactly when labels of another shape are given or a completion starts in column 0, and otherwise gives each active column the logp of its label, or input id without labels, from the position before it, and zero elsewhere |
| RolloutInputs.ActiveRows | rl_engine/executors/training_contract.py:582-598 | the masked rows handed back are each row's token logps in order |
| RolloutInputs.RowIsConcatenation | rl_engine/executors/training_contract.py:418-444 | a row is its prompt, cut or padded on the right to the prompt length, then its tokens, cut or padded on the right to the completion length |
| RolloutInputs.AttendedIsSequence | rl_engine/executors/training_contract.py:424-444 | with a resolved prompt length the attended ids of a row, in order, are its prompt and then its kept tokens |
| RolloutInputs.PromptLenIsLongest | rl_engine/executors/training_contract.py:410-414 | a resolved prompt length is that of the longest prompt |
| RolloutInputs.CompletionLenIsLongest | rl_engine/executors/training_contract.py:405-409 | the completion length holds every row up to the limit, and is no longer than some row unless it is one |
| RolloutFields.TokensComeFrom | rl_engine/executors/training_contract.py:792-814 | a mapping's tokens are those of its first nested candidate with any, else its own; an object's are its own list whenever it has one, else those of the first nested candidate with any |
| RolloutFields.RewardComesFrom | rl_engine/executors/training_contract.py:833-857 | a reward is that of the first nested candidate with one, else the first of reward, score, scalar_reward and reward_score |
| RolloutFields.LogpsComeFrom | rl_engine/executors/training_contract.py:860-884 | reference logps are those of the first nested candidate with any, else the first of reference_logps, ref_logps, reference_logprobs and ref_logprobs |
| RolloutFields.PromptComesFrom | rl_engine/executors/training_contract.py:817-830 | a prompt is the first of prompt_token_ids, prompt_ids, input_token_ids and input_ids |
| RolloutFields.MissingHasNothing | rl_engine/executors/training_contract.py:792-794 | a missing candidate has no tokens, reward or logps |
| RolloutFields.AttachedFields | rl_engine/executors/training_contract.py:701-789 | attaching sets reward or reference_logps and keeps every other field; an object without a dictionary becomes a mapping that holds nothing else |
| RolloutPayload.Extract | rl_engine/executors/training_contract.py:460-517 | candidates, rewards and logps come from the normalized outputs when those yield any, otherwise from the outputs |
| RolloutPayload.ExtractGroups | rl_engine/executors/training_contract.py:617-667 | the loop over entries collects what each candidate yields, a lone candidate standing for its own group, and leaves out empty groups |
| RolloutPayload.AttachedGroups | rl_engine/executors/training_contract.py:670-768 | values attached in candidate order are extracted again group by group, each from its own candidate, when candidates without tokens yield nothing and the others yield what was put in |
| RolloutScores.FlatIsClean | rl_engine/executors/training_contract.py:792-884 | flat mapping candidates whose score keys are absent unless they have tokens meet that condition |
| RolloutScores.ScoresLand | rl_engine/executors/training_contract.py:360-383 | attaching rewards and logps to such a payload keeps the token groups, and both are extracted in the same shape with exactly the attached values |
| RolloutRoundTrip.GroupReturnsIff | rl_engine/executors/training_contract.py:670-728 | one group: the values extracted are the attached ones, in order, if and only if every candidate returns its own |
| RolloutRoundTrip.RewardsReturnIff | rl_engine/executors/training_contract.py:555-614 | attach to a payload, extract from it: the rewards come back in the candidates' shape and order if and only if no tokenless candidate, no nested output and no list before the candidates' own holds a reward that is found instead, or the one found there is the same |
| RolloutRoundTrip.LogpsReturnIff | rl_engine/executors/training_contract.py:730-768 | the same for reference logps, of which an empty row never comes back |
| RolloutRoundTrip.RewardsAlwaysReturnIff | rl_engine/executors/training_contract.py:460-517 | a payload returns whatever rewards are attached if and only if no tokenless candidate and no nested output of the candidates' list holds a reward, and no list before it yields one |
| RolloutRoundTrip.LogpsAlwaysReturnIff | rl_engine/executors/training_contract.py:460-517 | the same for reference logps |
| RolloutAttachment.ListTokensIff | rl_engine/executors/training_contract.py:670-728 | a list yields the same token groups after taking rewards if and only if every candidate keeps its tokens when it becomes a mapping |
| RolloutAttachment.TokensSurviveIff | rl_engine/executors/training_contract.py:555-580 | attaching rewards leaves the token groups of a payload as they were if and only if every candidate keeps its tokens, or all candidates of the normalized outputs lose them and the outputs hold the same groups |
| RolloutAttachment.KeptScoresIff | rl_engine/executors/training_contract.py:360-383 | when every candidate keeps its tokens both attachments succeed, and tokens, rewards and logps all come back if and only if rewards and logps each would alone |
| RolloutAttachment.ChangedTokens | rl_engine/executors/training_contract.py:701-728 | when every candidate still has tokens but not all the same ones, both attachments succeed and other tokens are extracted than were scored |
| RolloutAttachment.SomeLost | rl_engine/executors/training_contract.py:599-614 | when some but not all candidates lose their tokens, attaching the logps raises the count mismatch |
| RolloutAttachment.AllLost | rl_engine/executors/training_contract.py:583-614 | when all lose them and no outputs are read in their place, the logps are dropped without an error |
| RolloutAttachment.FellThrough | rl_engine/executors/training_contract.py:583-614 | when all candidates of the normalized outputs lose them and the outputs have some, the logps go to those, or raise when there are more or fewer of them |
| RolloutAttachment.ReroutedIff | rl_engine/executors/training_contract.py:460-517 | what comes back then: tokens, rewards and logps, if and only if the outputs as mappings hold the same tokens, the rewards return from the normalized outputs, and the logps from a tokenless candidate there or else from the outputs |
| RolloutAttachment.ScoresReturnIff | rl_engine/executors/training_contract.py:360-383 | for every payload, rewards attached first and logps second: both attachments succeed and tokens, rewards and logps are extracted again as they were scored if and only if every candidate keeps its tokens and each kind of score would return alone, or the outputs stand in for the normalized ones in every respect |
| RolloutRoundTrip.NestedRewardHides | rl_engine/executors/training_contract.py:833-856 | a candidate whose nested output already has a reward hides the attached one |
| RolloutRoundTrip.StaleListHides | rl_engine/executors/training_contract.py:480-497 | a tokenless mapping with a reward in the normalized outputs hides the reward attached to a clean candidate in the outputs |
| RolloutAttachment.WrappedObjectLosesTokens | rl_engine/executors/training_contract.py:701-728 | an object without a dictionary is wrapped when its reward is attached: its tokens are gone and its logps are dropped without an error |
| RolloutAttachment.SameTokensElsewhere | rl_engine/executors/training_contract.py:460-517 | the same object before a mapping with equal tokens in the outputs: its tokens are lost and the same ones are read from the outputs |
| RolloutAlignment.AttachToMembers | rl_engine/executors/training_contract.py:670-698 | the loop over one group threads the index and raises when values run out |
| RolloutAlignment.AttachToGroupedOutputs | rl_engine/executors/training_contract.py:670-759 | the loop over all groups |
| RolloutAlignment.AttachToPayload | rl_engine/executors/training_contract.py:555-614 | the first list that takes any value must take them all; a count mismatch raises |
| RolloutAlignment.RecordsAreCandidates | rl_engine/executors/training_contract.py:520-552 | the input builder and the batch builder see the same candidates in the same order |
| RolloutAlignment.FlatMatch | rl_engine/executors/training_contract.py:908-927 | the logp match check depends on the row lengths only |
| RolloutAlignment.ScoreAndBatch | rl_engine/executors/training_contract.py:88-123 | end to end: a clean payload yields a batch exactly when the configuration is accepted, there are candidates, prompt length is at least one and there is a reward per row; then row r holds candidate r's tokens and reward; and with flat candidates and fitting limits every masked (r, t) holds the logp scored for its token |
| RolloutAlignment.AcceptedIff | rl_engine/executors/training_contract.py:908-927 | the trainer accepts the logps if and only if the builder's limit is absent or covers every row up to the trainer's length |
| RolloutAlignment.CoveredIff | rl_engine/executors/training_contract.py:165-168 | every active token was scored if and only if the limit is absent or covers every row's share of the batch length |
| RolloutAlignment.EveryTokenIsScored | rl_engine/executors/training_contract.py:401-411 | both hold when min_completion_len <= completion_len and the limit is absent or at least completion_len |
| RolloutAlignment.AcceptedButUncovered | rl_engine/executors/training_contract.py:165-168 | with min_completion_len above completion_len the check can pass while active tokens have no logp |
| RolloutBatch.FillBatch | rl_engine/executors/training_contract.py:163-268 | the rows of the batch: clipped tokens modulo the vocabulary, the mask, and the reference logps |
| RolloutBatch.BatchLenIsLongest | rl_engine/executors/training_contract.py:165-169 | the batch is as long as its longest row, within the configured bounds |
| RolloutBatch.RowOfGroup | rl_engine/executors/training_contract.py:165-219 | every row of the batch holds the candidate at its place, group after group, and knows its group |
| RolloutBatch.ProxyIsMeanShare | rl_engine/executors/training_contract.py:940-943 | the stand-in reward is the sum of the token ids modulo the vocabulary over their number times the largest id, in [0, 1] |
| RolloutBatch.BatchOf | rl_engine/executors/training_contract.py:88-123 | payload rewards and logps are used exactly when they match the candidates; otherwise the token-id proxy and zeros |

## Left out

- Floating-point rounding, dtype casts, TF32 and autocast: all arithmetic is over exact reals.
- The compiled extension kernels: only the elementwise contract of logits to dlogits is modelled.
- `torch.distributed`: gathers and reductions are functions of all ranks' values. The cached partition
  check is not modelled, since its key omits the other ranks' ranges.
- The batch dimension of the naive attention op, which it treats pointwise; the flash kernels see batch and
  heads as one dimension, as they do here. Strides other than those of contiguous tensors.
- Concurrent flash programs: each runs as one step of an order, and its stores to Out, L and M are not
  interleaved with another's.
- Memory after the flash buffers holds reals: a NaN or infinity there would poison a row that reads it with
  weight zero. A saved denominator of zero there, which only programs running past a head read, gives the
  quotient zero.
- Backward launches whose query and key blocks differ; the wrapper launches 64 and 64.
- The derivative itself: gradients are characterised by tangent inequalities and, for attention, by the
  softmax Jacobian, not by limits.
- The `compute_grad_*` switches of the backwards, which only skip outputs.
- CUDA driver calls, sockets, file descriptors, events and DLPack: an attach fails or yields the bytes.
- The CUDA VMM and IPC bridges' own tables, which follow the same lifecycle.
- Zero-size tensors in the shared-memory transport, which get no segment.
- The order in which dictionaries are walked, except in packing, rebinding and shared-memory segments.
- Parameter rebinding on more than one worker, and tied parameters under two names.
- `apply_model` calls that fail to reach the worker: a release that never arrives restores nothing.
- Installing through the other vLLM adapters, sampling, Ray and DeepSpeed integration.
- Token scores, the shape checks of the scorer's logits, and the metrics and metadata of scoring and batches.
- Advantages, prompt columns and old log-probabilities of the training batch, and the synthetic batch.
- Candidate objects whose scores are class attributes or properties: objects have instance fields only.
- The paged cache tensors themselves: only their addressing is modelled.
- Registry dispatch, embedding, RMSNorm, RoPE, SwiGLU and matmul wrappers, which would add easy members.
- ParameterRebinding.EveryRunKeepsParameters: excludes installs of the update that is already active,
  for which ReinstallKeepsIff gives the exact condition.
- RolloutState.EveryRunKeepsExec: assumes the release steps complete; RunKeepsIff gives the exact condition.
