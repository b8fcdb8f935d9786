/** TransformerBlock and Transformer: the blocks are built in a loop, each
    owning one Attention cache; a forward call checks the batch size,
    selects the rotary rows and the mask rows of the window, threads the
    hidden state through the blocks in order and, when an output position
    is given, keeps only that position of the window.

    The numerical parts enter as function parameters: `embed` (the token
    embedding), `project` (attention_norm, the wk/wv projections and the
    rotary rotation of a block, giving its xk and xv), `combine` (queries,
    scores, mask, softmax, wo and the two residual branches of a block,
    given the repeated keys and values it read), `norm` and `output` (the
    final RMSNorm and output projection, applied position by position). */
module LlamaModel {
  import opened Common
  import opened Heads
  import opened FeedForward
  import opened Masking
  import opened Rotary
  import opened GroupedHeads
  import opened KvCache

  /** The model output: one logits vector per window position, or one per
      batch slot when an output position is selected. */
  datatype Logits<L> = PerPosition(all: seq<seq<L>>) | AtOutput(selected: seq<L>)

  /** What the constructor raises, in the order the source runs into it:
      the first block's head width (dim // n_heads), its Attention head
      setup and its FeedForward width, then the rotary table's
      dim // n_heads. None when construction succeeds. */
  function ConstructionError(params: ModelArgs, worldSize: nat): (e: Option<Error>)
    ensures e.None? <==>
      params.nHeads > 0 &&
      (params.nLayers > 0 ==> AttentionHeads(params, worldSize).Ok? && BlockHiddenDim(params).Ok?)
    ensures params.nHeads == 0 ==> e == Some(ZeroDivision)
    ensures params.nLayers > 0 && params.nHeads > 0 && AttentionHeads(params, worldSize).Err? ==>
      e == Some(AttentionHeads(params, worldSize).error)
  {
    if params.nHeads == 0 then Some(ZeroDivision)
    else if params.nLayers > 0 && AttentionHeads(params, worldSize).Err? then
      Some(AttentionHeads(params, worldSize).error)
    else if params.nLayers > 0 && BlockHiddenDim(params).Err? then
      Some(BlockHiddenDim(params).error)
    else None
  }

  /** A position-wise map over a (batch x position) grid: tok_embeddings
      on the tokens, the final norm and the output projection on vectors. */
  function MapGrid<V, W>(h: seq<seq<V>>, f: V -> W): (r: seq<seq<W>>)
    ensures |r| == |h| && forall b :: 0 <= b < |h| ==> |r[b]| == |h[b]|
    ensures forall b, s :: 0 <= b < |h| && 0 <= s < |h[b]| ==> r[b][s] == f(h[b][s])
  {
    seq(|h|, b requires 0 <= b < |h| => seq(|h[b]|, s requires 0 <= s < |h[b]| => f(h[b][s])))
  }

  /** output_index - input_indexes[0]: the window offset of the output
      position; input_indexes[0] raises on an empty window. */
  function OutputOffset(inputIndexes: seq<int>, outputIndex: int): (r: Result<int>)
    ensures r.Ok? <==> |inputIndexes| > 0
    ensures r.Ok? ==> inputIndexes[0] + r.value == outputIndex
    ensures r.Err? ==> r.error == IndexOutOfRange
  {
    if |inputIndexes| == 0 then Err(IndexOutOfRange) else Ok(outputIndex - inputIndexes[0])
  }

  /** Offset k is a position of every batch slot's window; index_select
      refuses a negative index even on an empty batch. */
  predicate InWindow<V>(h: seq<seq<V>>, k: int)
  {
    0 <= k && forall b :: 0 <= b < |h| ==> k < |h[b]|
  }

  /** h.index_select(1, offset).squeeze(1): the vector at the output offset
      of every batch slot; index_select raises on an offset outside the
      window. */
  function SelectOutput<V>(h: seq<seq<V>>, inputIndexes: seq<int>, outputIndex: int): (r: Result<seq<V>>)
    ensures r.Ok? <==> |inputIndexes| > 0 && InWindow(h, outputIndex - inputIndexes[0])
    ensures r.Err? ==> r.error == IndexOutOfRange
    ensures r.Ok? ==>
      |inputIndexes| > 0 && |r.value| == |h| &&
      forall b :: 0 <= b < |h| ==>
        0 <= outputIndex - inputIndexes[0] < |h[b]| && r.value[b] == h[b][outputIndex - inputIndexes[0]]
  {
    match OutputOffset(inputIndexes, outputIndex)
    case Err(e) => Err(e)
    case Ok(k) =>
      if InWindow(h, k) then
        Ok(seq(|h|, b requires 0 <= b < |h| => h[b][k]))
      else Err(IndexOutOfRange)
  }

  /** For a contiguous window the offset arithmetic finds the output
      position: when output_index lies in the window, the selected window
      slot is the one at absolute position output_index. */
  lemma {:induction false} ContiguousOffsetFindsOutput(inputIndexes: seq<int>, outputIndex: int)
    requires Contiguous(inputIndexes) && outputIndex in inputIndexes
    ensures OutputOffset(inputIndexes, outputIndex).Ok?
    ensures var k := OutputOffset(inputIndexes, outputIndex).value;
      0 <= k < |inputIndexes| && inputIndexes[k] == outputIndex
  {
    var i :| 0 <= i < |inputIndexes| && inputIndexes[i] == outputIndex;
    assert inputIndexes[i] == inputIndexes[0] + i;
  }

  /** The offset arithmetic assumes a contiguous window: for the window
      [0, 2, 3] and output position 2 it selects slot 2, which holds
      position 3. */
  lemma NonContiguousOffsetMissesOutput()
    ensures OutputOffset([0, 2, 3], 2) == Ok(2)
    ensures [0, 2, 3][2] != 2
  {}

  /** The end of Transformer.forward: the final norm at every position,
      then either every position or only the output position of each batch
      slot (output_index - input_indexes[0] within the window), through the
      output projection. */
  function Finish<V, L>(h: seq<seq<V>>, inputIndexes: seq<int>, outputIndex: Option<int>,
                        norm: V -> V, output: V -> L): (r: Result<Logits<L>>)
    ensures outputIndex.None? ==>
      && r.Ok? && r.value.PerPosition?
      && |r.value.all| == |h|
      && forall b :: 0 <= b < |h| ==>
           |r.value.all[b]| == |h[b]| &&
           forall s :: 0 <= s < |h[b]| ==> r.value.all[b][s] == output(norm(h[b][s]))
    ensures outputIndex.Some? ==>
      (r.Ok? <==> |inputIndexes| > 0 && InWindow(h, outputIndex.value - inputIndexes[0]))
    ensures outputIndex.Some? && r.Ok? ==>
      && r.value.AtOutput?
      && |inputIndexes| > 0
      && |r.value.selected| == |h|
      && forall b :: 0 <= b < |h| ==>
           0 <= outputIndex.value - inputIndexes[0] < |h[b]| &&
           r.value.selected[b] == output(norm(h[b][outputIndex.value - inputIndexes[0]]))
    ensures r.Err? ==> r.error == IndexOutOfRange
  {
    var normed := MapGrid(h, norm);
    match outputIndex
    case None => Ok(PerPosition(MapGrid(normed, output)))
    case Some(o) =>
      match SelectOutput(normed, inputIndexes, o)
      case Err(e) => Err(e)
      case Ok(sel) => Ok(AtOutput(seq(|sel|, b requires 0 <= b < |sel| => output(sel[b]))))
  }

  /** TransformerBlock: a layer id, one Attention (with its cache) and the
      width of its FeedForward. */
  class Block<T> {
    const layerId: nat
    const headDim: nat
    const attention: Attention<T>
    const hiddenDim: int

    /** TransformerBlock.__init__: head_dim = dim // n_heads, the Attention,
        then the FeedForward of width 4 * dim under the hidden-width rule. */
    constructor (layerId: nat, args: ModelArgs, worldSize: nat, zero: T)
      requires AttentionHeads(args, worldSize).Ok? && BlockHiddenDim(args).Ok?
      ensures this.layerId == layerId
      ensures headDim * args.nHeads <= args.dim < (headDim + 1) * args.nHeads
      ensures hiddenDim == BlockHiddenDim(args).value
      ensures hiddenDim % args.multipleOf == 0
      ensures fresh(attention) && fresh(attention.cacheK) && fresh(attention.cacheV)
      ensures attention.Valid()
      ensures attention.layout == AttentionHeads(args, worldSize).value
      ensures attention.maxBatchSize == args.maxBatchSize && attention.maxSeqLen == args.maxSeqLen
      ensures var l := attention.layout;
        Grid(attention.cacheK) == Zeros(args.maxBatchSize, args.maxSeqLen, l.nLocalKvHeads, l.headDim, zero) &&
        Grid(attention.cacheV) == Zeros(args.maxBatchSize, args.maxSeqLen, l.nLocalKvHeads, l.headDim, zero)
    {
      HeadLayoutBounds(args, worldSize);
      this.layerId := layerId;
      headDim := args.dim / args.nHeads;
      attention := new Attention(args, worldSize, zero);
      hiddenDim := BlockHiddenDim(args).value;
    }

    /** TransformerBlock.forward: the block's keys and values for this
        window are written into the cache, the whole cache is read back
        with repeated heads, and the block output is computed from it. A
        malformed projection or a position outside the cache raises with
        nothing written; key/value heads that do not line up with the query
        heads raise after both writes. */
    method Forward<V, C>(x: seq<seq<V>>, freqs: seq<seq<C>>, mask: seq<seq<MaskEntry>>, inputIndexes: seq<int>,
                         project: (nat, seq<seq<V>>, seq<seq<C>>) -> (Tensor4<T>, Tensor4<T>),
                         combine: (nat, seq<seq<V>>, seq<seq<C>>, seq<seq<MaskEntry>>, Tensor4<T>, Tensor4<T>) -> seq<seq<V>>)
      returns (r: Result<seq<seq<V>>>)
      requires attention.Valid()
      modifies attention.cacheK, attention.cacheV
      ensures attention.Valid()
      ensures var kv := project(layerId, x, freqs);
        r.Ok? <==> attention.Accepts(kv.0, kv.1, inputIndexes) && attention.HeadsMatch()
      ensures var kv := project(layerId, x, freqs);
        r.Err? ==>
          r.error ==
          if attention.FitsWindow(kv.0, inputIndexes) && attention.FitsWindow(kv.1, inputIndexes) &&
             !AllBelow(inputIndexes, attention.maxSeqLen)
          then IndexOutOfRange else ShapeMismatch
      ensures var kv := project(layerId, x, freqs);
        !attention.Accepts(kv.0, kv.1, inputIndexes) ==>
          Grid(attention.cacheK) == old(Grid(attention.cacheK)) &&
          Grid(attention.cacheV) == old(Grid(attention.cacheV))
      ensures var kv := project(layerId, x, freqs);
        attention.Accepts(kv.0, kv.1, inputIndexes) ==>
          Grid(attention.cacheK) == IndexCopy(old(Grid(attention.cacheK)), inputIndexes, kv.0) &&
          Grid(attention.cacheV) == IndexCopy(old(Grid(attention.cacheV)), inputIndexes, kv.1)
      ensures forall b, p :: 0 <= b < attention.maxBatchSize && 0 <= p < attention.maxSeqLen && p !in inputIndexes ==>
        attention.cacheK[b, p] == old(attention.cacheK[b, p]) && attention.cacheV[b, p] == old(attention.cacheV[b, p])
      ensures r.Ok? ==>
        r.value == combine(layerId, x, freqs, mask,
                           RepeatKv(Grid(attention.cacheK), attention.layout.nRep),
                           RepeatKv(Grid(attention.cacheV), attention.layout.nRep))
    {
      var kv := project(layerId, x, freqs);
      var read := attention.Forward(kv.0, kv.1, inputIndexes);
      if read.Err? {
        return Err(read.error);
      }
      r := Ok(combine(layerId, x, freqs, mask, read.value.0, read.value.1));
    }
  }

  /** The model: its configuration, the rotary table, the causal mask and
      the blocks. */
  class Transformer<T, C> {
    const params: ModelArgs
    const worldSize: nat
    const freqsCis: seq<seq<C>>
    const mask: seq<seq<MaskEntry>>
    const layers: seq<Block<T>>

    /** Every cache array of every block. */
    ghost function Caches(): set<array2<seq<seq<T>>>>
    {
      (set j | 0 <= j < |layers| :: layers[j].attention.cacheK) +
      (set j | 0 <= j < |layers| :: layers[j].attention.cacheV)
    }

    /** One block per layer, block j with layer id j, all with the shapes of
        the configuration, and no two blocks sharing a cache array. */
    ghost predicate Valid()
      reads Caches()
    {
      && |layers| == params.nLayers
      && |freqsCis| == 2 * params.maxSeqLen
      && mask == CausalMask(params.maxSeqLen)
      && (forall j :: 0 <= j < |layers| ==>
            && layers[j].layerId == j
            && layers[j].attention.maxBatchSize == params.maxBatchSize
            && layers[j].attention.maxSeqLen == params.maxSeqLen
            && layers[j].attention.Valid())
      && (forall i, j :: 0 <= i < |layers| && 0 <= j < |layers| && i != j ==>
            && layers[i].attention.cacheK != layers[j].attention.cacheK
            && layers[i].attention.cacheK != layers[j].attention.cacheV
            && layers[i].attention.cacheV != layers[j].attention.cacheV)
    }

    /** Transformer.__init__: n_layers blocks appended in order, the rotary
        table for head width dim // n_heads over 2 * max_seq_len positions,
        and the causal mask over max_seq_len positions. `polar(t, e)` is the
        table entry for position t and even exponent e. */
    constructor (params: ModelArgs, worldSize: nat, zero: T, polar: (nat, nat) -> C)
      requires ConstructionError(params, worldSize).None?
      ensures this.params == params && this.worldSize == worldSize
      ensures Valid() && fresh(Caches())
      ensures freqsCis == PrecomputeFreqsCis(params.dim / params.nHeads, 2 * params.maxSeqLen, polar)
      ensures IsMatrix(freqsCis, 2 * params.maxSeqLen, (params.dim / params.nHeads) / 2)
      ensures mask == CausalMask(params.maxSeqLen)
      ensures forall j :: 0 <= j < |layers| ==>
        && layers[j].attention.layout == AttentionHeads(params, worldSize).value
        && layers[j].hiddenDim == BlockHiddenDim(params).value
        && var l := layers[j].attention.layout;
           var z := Zeros(params.maxBatchSize, params.maxSeqLen, l.nLocalKvHeads, l.headDim, zero);
           Grid(layers[j].attention.cacheK) == z && Grid(layers[j].attention.cacheV) == z
    {
      this.params := params;
      this.worldSize := worldSize;
      var blocks: seq<Block<T>> := [];
      for layerId := 0 to params.nLayers
        invariant |blocks| == layerId
        invariant forall j :: 0 <= j < layerId ==>
          && fresh(blocks[j].attention.cacheK) && fresh(blocks[j].attention.cacheV)
          && blocks[j].layerId == j
          && blocks[j].attention.maxBatchSize == params.maxBatchSize
          && blocks[j].attention.maxSeqLen == params.maxSeqLen
          && blocks[j].attention.Valid()
          && blocks[j].attention.layout == AttentionHeads(params, worldSize).value
          && blocks[j].hiddenDim == BlockHiddenDim(params).value
          && var l := blocks[j].attention.layout;
             var z := Zeros(params.maxBatchSize, params.maxSeqLen, l.nLocalKvHeads, l.headDim, zero);
             Grid(blocks[j].attention.cacheK) == z && Grid(blocks[j].attention.cacheV) == z
        invariant forall i, j :: 0 <= i < layerId && 0 <= j < layerId && i != j ==>
          && blocks[i].attention.cacheK != blocks[j].attention.cacheK
          && blocks[i].attention.cacheK != blocks[j].attention.cacheV
          && blocks[i].attention.cacheV != blocks[j].attention.cacheV
      {
        var block := new Block(layerId, params, worldSize, zero);
        blocks := blocks + [block];
      }
      layers := blocks;
      freqsCis := PrecomputeFreqsCis(params.dim / params.nHeads, 2 * params.maxSeqLen, polar);
      mask := CausalMask(params.maxSeqLen);
    }

    /** The projections of block j for the hidden state h fit its cache. */
    ghost predicate Fits<V>(j: nat, h: seq<seq<V>>, freqs: seq<seq<C>>, inputIndexes: seq<int>,
                            project: (nat, seq<seq<V>>, seq<seq<C>>) -> (Tensor4<T>, Tensor4<T>))
      requires j < |layers|
    {
      var kv := project(j, h, freqs);
      layers[j].attention.FitsWindow(kv.0, inputIndexes) && layers[j].attention.FitsWindow(kv.1, inputIndexes)
    }

    /** Block j ran on hidden state h and produced h': its projections fit,
        its key/value heads line up with its query heads, both caches were
        written at the window's positions, and h' was computed from the
        whole caches read back with repeated heads. */
    twostate predicate Ran<V>(j: nat, new h: seq<seq<V>>, new h': seq<seq<V>>, freqs: seq<seq<C>>,
                              window: seq<seq<MaskEntry>>, inputIndexes: seq<int>,
                              project: (nat, seq<seq<V>>, seq<seq<C>>) -> (Tensor4<T>, Tensor4<T>),
                              combine: (nat, seq<seq<V>>, seq<seq<C>>, seq<seq<MaskEntry>>, Tensor4<T>, Tensor4<T>) -> seq<seq<V>>)
      requires j < |layers|
      reads layers[j].attention.cacheK, layers[j].attention.cacheV
    {
      var a := layers[j].attention;
      var kv := project(j, h, freqs);
      && old(a.Valid())
      && Fits(j, h, freqs, inputIndexes, project)
      && a.HeadsMatch()
      && Grid(a.cacheK) == IndexCopy(old(Grid(a.cacheK)), inputIndexes, kv.0)
      && Grid(a.cacheV) == IndexCopy(old(Grid(a.cacheV)), inputIndexes, kv.1)
      && h' == combine(j, h, freqs, window, RepeatKv(Grid(a.cacheK), a.layout.nRep),
                       RepeatKv(Grid(a.cacheV), a.layout.nRep))
    }

    /** Block j raised on hidden state h: either its projections do not fit
        and both caches are as they were, or they fit, both caches were
        written at the window's positions and its key/value heads do not
        line up with its query heads. */
    twostate predicate Failed<V>(j: nat, new h: seq<seq<V>>, freqs: seq<seq<C>>, inputIndexes: seq<int>,
                                 project: (nat, seq<seq<V>>, seq<seq<C>>) -> (Tensor4<T>, Tensor4<T>))
      requires j < |layers|
      reads layers[j].attention.cacheK, layers[j].attention.cacheV
    {
      var a := layers[j].attention;
      var kv := project(j, h, freqs);
      && old(a.Valid())
      && if Fits(j, h, freqs, inputIndexes, project) then
           && !a.HeadsMatch()
           && Grid(a.cacheK) == IndexCopy(old(Grid(a.cacheK)), inputIndexes, kv.0)
           && Grid(a.cacheV) == IndexCopy(old(Grid(a.cacheV)), inputIndexes, kv.1)
         else
           && Grid(a.cacheK) == old(Grid(a.cacheK))
           && Grid(a.cacheV) == old(Grid(a.cacheV))
    }

    /** One iteration of that loop: block i runs on h. Only block i's
        caches may change, and the model stays well formed. */
    method Step<V>(i: nat, h: seq<seq<V>>, freqs: seq<seq<C>>, window: seq<seq<MaskEntry>>, inputIndexes: seq<int>,
                   project: (nat, seq<seq<V>>, seq<seq<C>>) -> (Tensor4<T>, Tensor4<T>),
                   combine: (nat, seq<seq<V>>, seq<seq<C>>, seq<seq<MaskEntry>>, Tensor4<T>, Tensor4<T>) -> seq<seq<V>>)
      returns (r: Result<seq<seq<V>>>)
      requires Valid() && i < |layers| && AllBelow(inputIndexes, params.maxSeqLen)
      modifies layers[i].attention.cacheK, layers[i].attention.cacheV
      ensures Valid()
      ensures r.Ok? <==> Fits(i, h, freqs, inputIndexes, project) && layers[i].attention.HeadsMatch()
      ensures r.Ok? ==> Ran(i, h, r.value, freqs, window, inputIndexes, project, combine)
      ensures r.Err? ==> r.error == ShapeMismatch && Failed(i, h, freqs, inputIndexes, project)
      ensures forall b, p :: 0 <= b < params.maxBatchSize && 0 <= p < params.maxSeqLen && p !in inputIndexes ==>
        layers[i].attention.cacheK[b, p] == old(layers[i].attention.cacheK[b, p]) &&
        layers[i].attention.cacheV[b, p] == old(layers[i].attention.cacheV[b, p])
    {
      r := layers[i].Forward(h, freqs, window, inputIndexes, project, combine);
    }

    /** The loop of Transformer.forward over the blocks: h goes through
        block 0, 1, ... in order; the first block that fails stops the loop.
        `trace` holds the hidden state entering each block that ran, then
        the state leaving the last one. */
    method RunLayers<V>(h0: seq<seq<V>>, freqs: seq<seq<C>>, window: seq<seq<MaskEntry>>, inputIndexes: seq<int>,
                        project: (nat, seq<seq<V>>, seq<seq<C>>) -> (Tensor4<T>, Tensor4<T>),
                        combine: (nat, seq<seq<V>>, seq<seq<C>>, seq<seq<MaskEntry>>, Tensor4<T>, Tensor4<T>) -> seq<seq<V>>)
      returns (r: Result<seq<seq<V>>>, ghost trace: seq<seq<seq<V>>>)
      requires Valid() && AllBelow(inputIndexes, params.maxSeqLen)
      modifies Caches()
      ensures Valid()
      ensures 1 <= |trace| <= |layers| + 1 && trace[0] == h0
      ensures forall j, b, p ::
        0 <= j < |layers| && 0 <= b < params.maxBatchSize && 0 <= p < params.maxSeqLen && p !in inputIndexes ==>
        layers[j].attention.cacheK[b, p] == old(layers[j].attention.cacheK[b, p]) &&
        layers[j].attention.cacheV[b, p] == old(layers[j].attention.cacheV[b, p])
      ensures forall j :: |trace| <= j < |layers| ==>
        Grid(layers[j].attention.cacheK) == old(Grid(layers[j].attention.cacheK)) &&
        Grid(layers[j].attention.cacheV) == old(Grid(layers[j].attention.cacheV))
      ensures forall j :: 0 <= j < |trace| - 1 ==>
        Ran(j, trace[j], trace[j + 1], freqs, window, inputIndexes, project, combine)
      ensures r.Ok? <==> |trace| == |layers| + 1
      ensures r.Ok? ==> r.value == trace[|layers|]
      ensures r.Err? ==>
        r.error == ShapeMismatch &&
        Failed(|trace| - 1, trace[|trace| - 1], freqs, inputIndexes, project)
    {
      var h := h0;
      trace := [h];
      for i := 0 to |layers|
        invariant Valid()
        invariant |trace| == i + 1 && trace[i] == h && trace[0] == h0
        invariant forall j, b, p ::
          0 <= j < |layers| && 0 <= b < params.maxBatchSize && 0 <= p < params.maxSeqLen && p !in inputIndexes ==>
          layers[j].attention.cacheK[b, p] == old(layers[j].attention.cacheK[b, p]) &&
          layers[j].attention.cacheV[b, p] == old(layers[j].attention.cacheV[b, p])
        invariant forall j :: i <= j < |layers| ==>
          Grid(layers[j].attention.cacheK) == old(Grid(layers[j].attention.cacheK)) &&
          Grid(layers[j].attention.cacheV) == old(Grid(layers[j].attention.cacheV))
        invariant forall j :: 0 <= j < i ==>
          Ran(j, trace[j], trace[j + 1], freqs, window, inputIndexes, project, combine)
      {
        var next := Step(i, h, freqs, window, inputIndexes, project, combine);
        if next.Err? {
          return next, trace;
        }
        h := next.value;
        trace := trace + [h];
      }
      r := Ok(h);
    }

    /** Transformer.forward: the batch-size assert, the rotary rows and the
        mask rows of the window (index_select raises on a position outside
        the table), the blocks in order, then the output. `trace` is the
        one of RunLayers, empty when the call stops before the blocks. */
    method Forward<V, L>(tokens: seq<seq<int>>, inputIndexes: seq<int>, outputIndex: Option<int>,
                         embed: int -> V,
                         project: (nat, seq<seq<V>>, seq<seq<C>>) -> (Tensor4<T>, Tensor4<T>),
                         combine: (nat, seq<seq<V>>, seq<seq<C>>, seq<seq<MaskEntry>>, Tensor4<T>, Tensor4<T>) -> seq<seq<V>>,
                         norm: V -> V, output: V -> L)
      returns (r: Result<Logits<L>>, ghost trace: seq<seq<seq<V>>>)
      requires Valid()
      modifies Caches()
      ensures Valid()
      // the batch-size assert and the two index_select calls raise before any block runs
      ensures |tokens| != params.maxBatchSize ==> r == Err(BatchSizeMismatch) && trace == []
      ensures |tokens| == params.maxBatchSize && !AllBelow(inputIndexes, params.maxSeqLen) ==>
        r == Err(IndexOutOfRange) && trace == []
      ensures trace == [] ==> forall j :: 0 <= j < |layers| ==>
        Grid(layers[j].attention.cacheK) == old(Grid(layers[j].attention.cacheK)) &&
        Grid(layers[j].attention.cacheV) == old(Grid(layers[j].attention.cacheV))
      // no call changes a cache cell outside the window's positions
      ensures forall j, b, p ::
        0 <= j < |layers| && 0 <= b < params.maxBatchSize && 0 <= p < params.maxSeqLen && p !in inputIndexes ==>
        layers[j].attention.cacheK[b, p] == old(layers[j].attention.cacheK[b, p]) &&
        layers[j].attention.cacheV[b, p] == old(layers[j].attention.cacheV[b, p])
      // once the checks pass, the blocks run in order from the embedded tokens
      ensures |tokens| == params.maxBatchSize && AllBelow(inputIndexes, params.maxSeqLen) ==>
        && AllBelow(inputIndexes, |freqsCis|)
        && 1 <= |trace| <= |layers| + 1
        && trace[0] == MapGrid(tokens, embed)
        && (forall j :: |trace| <= j < |layers| ==>
              Grid(layers[j].attention.cacheK) == old(Grid(layers[j].attention.cacheK)) &&
              Grid(layers[j].attention.cacheV) == old(Grid(layers[j].attention.cacheV)))
        && (forall j :: 0 <= j < |trace| - 1 ==>
              Ran(j, trace[j], trace[j + 1], IndexSelect(freqsCis, inputIndexes).value,
                  IndexSelect(mask, inputIndexes).value, inputIndexes, project, combine))
        // a block that raises stops the call
        && (|trace| <= |layers| ==>
              r == Err(ShapeMismatch) &&
              Failed(|trace| - 1, trace[|trace| - 1], IndexSelect(freqsCis, inputIndexes).value, inputIndexes, project))
        // after the last block: the output
        && (|trace| == |layers| + 1 ==> r == Finish(trace[|layers|], inputIndexes, outputIndex, norm, output))
    {
      trace := [];
      if |tokens| != params.maxBatchSize {
        return Err(BatchSizeMismatch), trace;
      }
      var h := MapGrid(tokens, embed);
      var freqs := IndexSelect(freqsCis, inputIndexes);
      if freqs.Err? {
        return Err(freqs.error), trace;
      }
      var window := IndexSelect(mask, inputIndexes);
      if window.Err? {
        return Err(window.error), trace;
      }
      var last;
      last, trace := RunLayers(h, freqs.value, window.value, inputIndexes, project, combine);
      if last.Err? {
        return Err(last.error), trace;
      }
      r := Finish(last.value, inputIndexes, outputIndex, norm, output);
    }
  }
}
