# Llama model bookkeeping in Dafny

This project models the discrete bookkeeping of the Llama 2 transformer in
`llama/model.py`: the parts that decide which numbers go where, without the
floating-point arithmetic itself. Tensors are nested sequences over a generic
element type, so the model never needs to know what a number is.

Modules, one per concern of the source:

- `Common` (common.dfy): the `Result`/`Error` vocabulary for the exceptions the
  code raises, shape predicates, and `index_select` along the leading axis.
- `Arith` (arith.dfy): small facts about multiplication and floor division that
  the other proofs rely on.
- `Heads` (heads.dfy): the `ModelArgs` fields that are read, and the head setup
  of `Attention.__init__`. This covers n_kv_heads defaulting, the exact division
  by the model-parallel world size, n_rep and head_dim.
- `GroupedHeads` (repeat_kv.dfy): `repeat_kv`, proved equal to
  `repeat_interleave` along the head axis, as its doc comment claims.
- `FeedForward` (feed_forward.dfy): the hidden-width rule of
  `FeedForward.__init__`.
- `Masking` (mask.dfy): the causal mask (`full` then `triu(diagonal=1)`) and the
  selection of its rows by `input_indexes`. An entry is `Open` (0.0) or
  `Blocked` (-inf).
- `Rotary` (rotary.dfy): the shape of the rotary table and the shape logic of
  `reshape_for_broadcast`.
- `KvCache` (kv_cache.dfy): the key/value cache of one `Attention`.
  - Each buffer is an `array2` indexed by (batch slot, position). Each cell
    holds the (n_local_kv_heads x head_dim) slab that `index_copy` along axis 1
    moves as a unit.
  - `IndexCopy` is the value-level specification.
  - `Attention.Forward` checks the shapes and positions of the call, writes
    both caches in place and reads every position back through `repeat_kv`.
- `LlamaModel` (transformer.dfy): `TransformerBlock` and `Transformer`.
  - The constructor builds the blocks in a loop.
  - `Forward` checks the batch size, selects the rotary rows and the mask rows
    of the window, and threads the hidden state through the blocks in order.
    When an output position is given, it keeps only the window offset
    `output_index - input_indexes[0]`.

The numerical steps enter `Transformer.Forward` as function parameters:
- `embed` is the token embedding.
- `project` is attention_norm, wk/wv and the rotary rotation of a block.
- `combine` is queries, scores, mask, softmax, wo, the feed-forward network and
  the residual additions of a block.
- `norm` and `output` are the final RMSNorm and output projection, applied
  position by position.

The cache writes and reads, the head repetition and the order of the blocks
are modelled exactly. So are the checks that raise in the bookkeeping itself:
- the batch-size assert;
- the two `index_select` calls;
- the shape and position checks of `index_copy`;
- the head mismatch that makes the score matmul raise;
- the output offset.

Exceptions raised inside the numerical steps are not modelled (see "Left
out").

The output offset `output_index - input_indexes[0]` finds the output position
only in a contiguous window. `ContiguousOffsetFindsOutput` proves that it does
so in every contiguous window. `NonContiguousOffsetMissesOutput` shows that it
does not for the window [0, 2, 3].

## Model

| member | source | states |
|---|---|---|
| Common.IndexSelect | llama/model.py:414-416 | index_select succeeds exactly when every index is in range, in which case entry k is row idx[k]; otherwise it raises an index error |
| Heads.KvHeads | llama/model.py:114 | n_kv_heads is n_heads when unset, the configured value otherwise |
| Heads.DivideExact | llama/model.py:116-117 | divide_and_check_no_remainder succeeds exactly when the denominator is non-zero and divides the numerator, in which case quotient * denominator == numerator; a zero denominator raises ZeroDivisionError |
| Heads.AttentionHeads | llama/model.py:114-119 | the head setup succeeds exactly when world_size, n_heads and n_kv_heads are positive and world_size divides both head counts; local heads times world_size give back the global counts; n_rep and head_dim are the floor quotients |
| Heads.HeadLayoutBounds | llama/model.py:118-119 | n_rep groups of local kv heads fit in the local query heads and n_rep + 1 do not; n_heads * head_dim <= dim < n_heads * (head_dim + 1) |
| Heads.GroupsCoverHeadsIff | llama/model.py:114-118 | n_local_kv_heads * n_rep == n_local_heads if and only if n_kv_heads divides n_heads, and never exceeds it |
| Heads.SmallScenarioLayout | llama/model.py:114-119 | dim 8, 2 query heads, 1 kv head on one worker give layout (1, 2, 1, n_rep 2, head_dim 4) |
| Heads.DefaultArgsNoGrouping | llama/model.py:114-119 | with the ModelArgs defaults and any world size dividing 32, n_rep is 1 and head_dim is 128 |
| GroupedHeads.RepeatKv | llama/model.py:90-99 | repeat_kv keeps batch and sequence lengths and is the identity when n_rep == 1 |
| GroupedHeads.FlattenLength | llama/model.py:98 | the reshape of n-wide groups has \|groups\| * n elements |
| GroupedHeads.FlattenAt | llama/model.py:96-98 | element j of the reshaped groups is element j % n of group j / n |
| GroupedHeads.ExpandFlattenIsRepeatInterleave | llama/model.py:91-99 | expand followed by reshape equals repeat_interleave on one (batch, position) |
| GroupedHeads.RepeatInterleaveOnce | llama/model.py:93-94 | the n_rep == 1 shortcut returns what repeat_interleave with 1 would |
| GroupedHeads.RepeatKvIsRepeatInterleave | llama/model.py:90-99 | for every n_rep, repeat_kv is repeat_interleave along the head axis at every (batch, position), as the doc comment says |
| GroupedHeads.RepeatInterleaveRow | llama/model.py:95-99 | one slice of n_kv_heads vectors becomes n_kv_heads * n_rep vectors of the same width, head h holding input head h / n_rep |
| GroupedHeads.RepeatKvHeads | llama/model.py:90-99 | shape (bs, slen, n_kv, hd) becomes (bs, slen, n_kv * n_rep, hd); output head h is input head h / n_rep; heads of one group are identical |
| GroupedHeads.RepeatKvFirstOfGroups | llama/model.py:95-99 | the first head of group g is input kv head g, so no kv head is lost or reordered |
| FeedForward.TruncToInt | llama/model.py:242-245 | int() truncates toward zero: the result is within 1 of x, on the same side of 0 |
| FeedForward.ScaledHidden | llama/model.py:242-245 | without a multiplier the width is the floor of 2h/3; with one it is int(multiplier * that width) |
| FeedForward.FfnHiddenDim | llama/model.py:242-246 | the rounded width exists exactly when multiple_of > 0, is a multiple of it, and lies in [h, h + multiple_of) for the scaled width h; multiple_of 0 raises ZeroDivisionError |
| FeedForward.RoundUpBounds | llama/model.py:246 | multiple_of * ceil-division of h lies in [h, h + multiple_of) and is a multiple |
| FeedForward.HiddenDimIsLeastMultiple | llama/model.py:242-246 | every multiple of multiple_of that is at least the scaled width is at least the result: the result is the least such multiple |
| FeedForward.DefaultHiddenDim | llama/model.py:319-323 | with the defaults (dim 4096, multiple_of 256), a block's hidden width is 11008 |
| FeedForward.ScaledHiddenDimExample | llama/model.py:242-246 | dim 8192, multiple_of 4096 and multiplier 1.3 give 28672 |
| Masking.CausalMask | llama/model.py:403-406 | the mask is max_seq_len square and entry (i, j) is blocked if and only if j > i |
| Masking.WindowMask | llama/model.py:416 | selecting rows by input_indexes succeeds exactly when all are below max_seq_len; row k blocks key j if and only if j > input_indexes[k] |
| Masking.OpenPrefix | llama/model.py:403-416 | row k of the selected mask opens exactly positions 0 .. input_indexes[k] |
| Masking.OpenKeysAreWritten | llama/model.py:416 | with a contiguous window after fully written positions, every key a query may attend to was written earlier or by this call |
| Rotary.FrequencyExponents | llama/model.py:55 | arange(0, dim, 2)[: dim // 2] has dim // 2 entries, entry i is 2i, and each starts a pair inside the head |
| Rotary.PrecomputeFreqsCis | llama/model.py:54-59 | the table has `end` rows of dim // 2 entries; entry (t, i) is the rotation for position t and exponent 2i |
| Rotary.ReshapeForBroadcast | llama/model.py:62-67 | fewer than two axes, or a table not of shape (x.shape[1], x.shape[-1]), fails the asserts; a success keeps axes 1 and -1, sets the rest to 1, and preserves the element count |
| Rotary.BroadcastFitsFrom3D | llama/model.py:62-67 | for three or more axes, a table of the asserted shape always reshapes |
| Rotary.BroadcastOn2D | llama/model.py:62-67 | on two axes the reshape succeeds if and only if x.shape[1] <= 1 |
| KvCache.IndexCopy | llama/model.py:207-208 | index_copy along the position axis keeps the shape, leaves every position not in the index unchanged, and gives each written position its last written slab |
| KvCache.IndexCopyDistinct | llama/model.py:207-208 | with distinct positions, cache[b][input_indexes[i]] == x[b][i] for every i |
| KvCache.IndexCopyKeepsShape | llama/model.py:207-208 | writing well-shaped slabs keeps the cache's 4-D shape |
| KvCache.IndexCopySplit | llama/model.py:207-208 | one call equals two consecutive calls over the first k and the remaining window entries |
| KvCache.PrefillEqualsStepwise | llama/model.py:207-208 | prefilling a window in one call leaves the same cache as decoding it one position per call |
| KvCache.TwoCallsLastWriteWins | llama/model.py:207-208 | across two calls, a position holds the later call's value if it wrote there, else the earlier call's, else its old value |
| KvCache.Zeros | llama/model.py:172-189 | torch.zeros of the given 4-D shape has that shape |
| KvCache.IndexCopyInPlace | llama/model.py:207-208 | the in-place write loop leaves the array equal to IndexCopy of its old contents |
| KvCache.Attention.constructor | llama/model.py:114-189 | the layout is the head setup's, and both caches are distinct fresh zero buffers of shape (max_batch_size, max_seq_len, n_local_kv_heads, head_dim) |
| KvCache.Attention.Forward | llama/model.py:199-224 | a malformed xk or xv, or a position outside [0, max_seq_len), raises with both caches unchanged; otherwise both caches become IndexCopy of their old values; then, if n_local_kv_heads * n_rep != n_local_heads, the call raises, as the score matmul (or the final view for n_rep 0) would; otherwise the result is repeat_kv of all max_seq_len positions of both caches, with n_local_heads heads; cells outside input_indexes never change |
| LlamaModel.ConstructionError | llama/model.py:306-400 | construction raises nothing exactly when n_heads > 0 and, if there is any layer, the head setup and the hidden-width rule succeed; n_heads 0 raises ZeroDivisionError first |
| LlamaModel.MapGrid | llama/model.py:413 | tok_embeddings, applied token by token, keeps the (batch, position) layout and puts f(tokens[b][s]) at slot b, position s |
| LlamaModel.OutputOffset | llama/model.py:422 | input_indexes[0] raises on an empty window; otherwise input_indexes[0] + offset == output_index |
| LlamaModel.SelectOutput | llama/model.py:421-422 | selecting the output offset succeeds exactly when the window is non-empty and the offset is a position of every slot, in which case slot b yields h[b][offset] |
| LlamaModel.ContiguousOffsetFindsOutput | llama/model.py:421-422 | in a contiguous window containing output_index, the offset is in range and its window slot holds position output_index |
| LlamaModel.NonContiguousOffsetMissesOutput | llama/model.py:422 | in the window [0, 2, 3] with output_index 2, the offset selects the slot of position 3 |
| LlamaModel.Finish | llama/model.py:420-424 | without output_index every position yields output(norm(h)); with one, each batch slot yields output(norm(h)) at the offset, or the call raises an index error |
| LlamaModel.Block.constructor | llama/model.py:303-330 | the block keeps its layer id, head_dim is the floor of dim / n_heads, its Attention caches are fresh zero buffers, and its FeedForward width is the hidden-width rule applied to 4 * dim |
| LlamaModel.Block.Forward | llama/model.py:334-345 | the block succeeds exactly when its projections fit the cache, the positions are in range and its kv heads line up with its query heads; a bad projection or position raises with both caches unchanged; otherwise both caches become IndexCopy at input_indexes, even when the head mismatch then raises; on success the output is computed from the whole repeated caches; cells outside input_indexes never change |
| LlamaModel.Transformer.constructor | llama/model.py:349-407 | n_layers blocks appended in order, block j with id j and zero caches of its own; the rotary table for head width dim // n_heads over 2 * max_seq_len rows; the causal mask over max_seq_len |
| LlamaModel.Transformer.Step | llama/model.py:418-419 | one block runs: it succeeds exactly when its projections fit and its heads line up, and then it wrote its caches and produced the next hidden state; on failure its caches are unchanged (bad projection) or written (head mismatch) |
| LlamaModel.Transformer.RunLayers | llama/model.py:418-419 | the blocks run in order from h; each state in the trace is the previous block's output; the first block that raises stops the loop, and its caches are exactly as that failure leaves them (unchanged, or written when only the heads mismatch); later blocks are untouched |
| LlamaModel.Transformer.Forward | llama/model.py:410-424 | a batch other than max_batch_size, or a position not below max_seq_len, raises before any block runs; otherwise the blocks run in order from the embedded tokens on the selected rotary and mask rows; a block that raises stops the call with its caches stated exactly; the result is the output of the last block; no cache cell outside input_indexes changes |

## Left out

- Floating point. RMSNorm (llama/model.py:40-51), the rotary angle values (llama/model.py:55-58), apply_rotary_emb (llama/model.py:70-87), scores, softmax and matmul (llama/model.py:220-225), and the SiLU feed-forward (llama/model.py:292-293) are not computed. They enter as the parameters `polar`, `project`, `combine`, `norm` and `output`.
- The parallel layers `ColumnParallelLinear`, `RowParallelLinear` and `ParallelEmbedding` come from `xla_model_parallel`, which is not part of this model. Their collectives are communication. The embedding and projections are parameters, so an out-of-vocabulary token id is not modelled as an error.
- The ambient model-parallel lookups (`get_model_parallel_*`): the world size is an explicit parameter. Rank and groups affect only the parallel layers.
- fairscale's `divide_and_check_no_remainder` is not part of this model. `Heads.DivideExact` models it as an exactness assert followed by floor division. A zero denominator raises in the remainder.
- The `quant` and `gpu` flags, `torch.no_grad`, `register_buffer`, `vocab_size` and `norm_eps` are left out. They concern devices, kernels and the numerics.
- example_chat_completion.py is a driver script (environment, checkpoint and tokenizer paths, `Llama.build`). It has no bookkeeping of its own.
- FeedForward.ScaledHidden: `int(2 * hidden_dim / 3)` divides in floating point; the model uses the exact floor of 2h/3. The two can differ only once the quotient is too large for a double to hold exactly.
- FeedForward.ScaledHidden: `ffn_dim_multiplier` is a Python float; the model treats it as an exact rational, so float rounding of the product is not modelled.
- KvCache.IndexCopy: torch does not define which write wins when `input_indexes` repeats a position; the model takes the last one.
- KvCache.Attention.Forward: the source builds a new tensor with `index_copy` and rebinds the field; the model writes the one buffer in place. Nothing else holds the old tensor, so nothing can observe the difference.
- KvCache.Attention.Forward: a malformed shape and an out-of-range position both raise before anything is written. When both occur, the model reports the shape error; torch's own order between its two checks is not modelled.
- LlamaModel.Transformer.constructor: an exception raised during construction is a precondition, not an error result. `LlamaModel.ConstructionError` states which exception the source would raise.
- LlamaModel.SelectOutput: `output_index` is a single position (a one-element index tensor followed by `squeeze`). The window length is read per batch slot, so an empty batch carries no sequence length.
- The model restricts every size to a natural number. The source's `ModelArgs` fields are plain ints (`vocab_size` defaults to -1 at llama/model.py:29), so negative sizes are not modelled.
- LlamaModel.Transformer.Forward: exceptions raised inside the numerical steps are not modelled. For example, the reshape in apply_rotary_emb (llama/model.py:76) raises on an empty window or a zero head width, while the model returns Ok for an empty `input_indexes` with no output position.
- The mask's two leading singleton axes (shape (1, 1, n, n)) are dropped.
