/** Model configuration and the head bookkeeping of Attention.__init__:
    how many query and key/value heads each model-parallel worker owns,
    how many query heads share one key/value head, and the head width. */
module Heads {
  import opened Common
  import opened Arith

  /** The integer fields of ModelArgs that the modelled code reads.
      ffn_dim_multiplier is kept as an exact rational. */
  datatype ModelArgs = ModelArgs(
    dim: nat,
    nLayers: nat,
    nHeads: nat,
    nKvHeads: Option<nat>,
    multipleOf: nat,
    ffnDimMultiplier: Option<real>,
    maxBatchSize: nat,
    maxSeqLen: nat)

  /** The dataclass defaults (vocab_size, norm_eps and the device flags are not modelled). */
  const DefaultArgs := ModelArgs(4096, 32, 32, None, 256, None, 32, 2048)

  /** Per-worker head layout of one Attention layer. */
  datatype HeadLayout = HeadLayout(
    nKvHeads: nat,       // global key/value heads after defaulting
    nLocalHeads: nat,    // query heads held by this worker
    nLocalKvHeads: nat,  // key/value heads held by this worker
    nRep: nat,           // query heads served by one key/value head
    headDim: nat)

  /** n_kv_heads falls back to n_heads when it is not configured. */
  function KvHeads(args: ModelArgs): (n: nat)
    ensures args.nKvHeads.None? ==> n == args.nHeads
    ensures args.nKvHeads.Some? ==> n == args.nKvHeads.value
  {
    match args.nKvHeads
    case None => args.nHeads
    case Some(k) => k
  }

  /** fairscale's divide_and_check_no_remainder: asserts that the division
      is exact, then floor-divides; a zero denominator raises in `%`. */
  function DivideExact(numerator: nat, denominator: nat): (r: Result<nat>)
    ensures r.Ok? <==> denominator != 0 && numerator % denominator == 0
    ensures denominator == 0 ==> r == Err(ZeroDivision)
    ensures r.Ok? ==> r.value * denominator == numerator
  {
    if denominator == 0 then Err(ZeroDivision)
    else if numerator % denominator != 0 then Err(NotDivisible(numerator, denominator))
    else Ok(numerator / denominator)
  }

  /** The head setup of Attention.__init__, in the order the source runs it:
      local query heads, local key/value heads, the repetition factor
      (floor division by the local key/value heads), the head width (floor
      division by n_heads). */
  function AttentionHeads(args: ModelArgs, worldSize: nat): (r: Result<HeadLayout>)
    ensures r.Ok? <==>
      worldSize > 0 && args.nHeads > 0 && KvHeads(args) > 0 &&
      args.nHeads % worldSize == 0 && KvHeads(args) % worldSize == 0
    ensures r.Ok? ==>
      && r.value.nKvHeads == KvHeads(args)
      && r.value.nLocalHeads * worldSize == args.nHeads
      && r.value.nLocalKvHeads * worldSize == KvHeads(args)
      && r.value.nLocalKvHeads > 0
      && r.value.nRep == r.value.nLocalHeads / r.value.nLocalKvHeads
      && r.value.headDim == args.dim / args.nHeads
  {
    var nKv := KvHeads(args);
    var localHeads := DivideExact(args.nHeads, worldSize);
    var localKvHeads := DivideExact(nKv, worldSize);
    if localHeads.Err? then
      Err(localHeads.error)
    else if localKvHeads.Err? then
      Err(localKvHeads.error)
    else if localKvHeads.value == 0 then
      assert nKv == 0;
      Err(ZeroDivision)
    else if args.nHeads == 0 then
      Err(ZeroDivision)
    else
      Ok(HeadLayout(nKv, localHeads.value, localKvHeads.value,
                    localHeads.value / localKvHeads.value, args.dim / args.nHeads))
  }

  /** The two floor divisions of the head setup, as bounds: n_rep whole
      groups of local key/value heads fit in the local query heads and one
      more does not; n_heads heads of width head_dim fit in dim and one
      unit wider do not. */
  lemma {:induction false} HeadLayoutBounds(args: ModelArgs, worldSize: nat)
    requires AttentionHeads(args, worldSize).Ok?
    ensures var l := AttentionHeads(args, worldSize).value;
      && l.nRep * l.nLocalKvHeads <= l.nLocalHeads < (l.nRep + 1) * l.nLocalKvHeads
      && l.headDim * args.nHeads <= args.dim < (l.headDim + 1) * args.nHeads
  {
    var l := AttentionHeads(args, worldSize).value;
    FloorDivBounds(l.nLocalHeads, l.nLocalKvHeads);
    FloorDivBounds(args.dim, args.nHeads);
  }

  /** The local key/value heads, repeated n_rep times, cover exactly the local
      query heads if and only if n_kv_heads divides n_heads; otherwise the
      repeated keys have fewer heads than the queries. */
  lemma {:induction false} GroupsCoverHeadsIff(args: ModelArgs, worldSize: nat)
    requires AttentionHeads(args, worldSize).Ok?
    ensures var l := AttentionHeads(args, worldSize).value;
      (l.nLocalKvHeads * l.nRep == l.nLocalHeads <==> args.nHeads % KvHeads(args) == 0) &&
      l.nLocalKvHeads * l.nRep <= l.nLocalHeads
  {
    var l := AttentionHeads(args, worldSize).value;
    var w := worldSize;
    var kv := l.nLocalKvHeads;
    var q := l.nRep;
    HeadLayoutBounds(args, worldSize);
    var rem := l.nLocalHeads - kv * q;
    assert 0 <= rem < kv;
    // n_heads = (kv * q + rem) * w and n_kv_heads = kv * w
    assert args.nHeads == kv * w * q + rem * w by {
      calc {
        args.nHeads;
        l.nLocalHeads * w;
        (kv * q + rem) * w;
        { MulDistributes(kv * q, rem, w); }
        kv * q * w + rem * w;
        { MulCommutes3(kv, q, w); }
        kv * w * q + rem * w;
      }
    }
    assert KvHeads(args) == kv * w;
    assert 0 <= rem * w < kv * w by { MulStrictMono(rem, kv, w); }
    DivModUnique(args.nHeads, kv * w, q, rem * w);
    if rem == 0 {
      assert args.nHeads % KvHeads(args) == 0;
    } else {
      assert rem * w > 0 by { MulPositive(rem, w); }
    }
  }

  /** A small grouped-query configuration: dim 8, two query heads sharing
      one key/value head on a single worker, so n_rep is 2 and head_dim 4. */
  lemma SmallScenarioLayout()
    ensures AttentionHeads(ModelArgs(8, 1, 2, Some(1), 256, None, 1, 4), 1)
            == Ok(HeadLayout(1, 2, 1, 2, 4))
  {}

  /** With the defaults (n_kv_heads unset) every query head has its own
      key/value head, whatever the worker count that divides 32. */
  lemma {:induction false} DefaultArgsNoGrouping(worldSize: nat)
    requires worldSize > 0 && 32 % worldSize == 0
    ensures AttentionHeads(DefaultArgs, worldSize).Ok?
    ensures AttentionHeads(DefaultArgs, worldSize).value.nRep == 1
    ensures AttentionHeads(DefaultArgs, worldSize).value.headDim == 128
  {
    var l := AttentionHeads(DefaultArgs, worldSize).value;
    assert l.nLocalHeads == l.nLocalKvHeads;
    assert l.nLocalHeads / l.nLocalKvHeads == 1;
  }
}
