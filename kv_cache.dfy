/** The key/value cache of Attention. Each layer owns two buffers of shape
    (max_batch_size, max_seq_len, n_local_kv_heads, head_dim), created
    zero-filled; every forward call overwrites them at the sequence
    positions input_indexes (index_copy along axis 1) and then reads all
    max_seq_len positions back, repeating the key/value heads for the
    query heads.

    A buffer is an array2 indexed by (batch slot, position) whose cells are
    the (n_local_kv_heads x head_dim) slabs that index_copy moves as a unit. */
module KvCache {
  import opened Common
  import opened Heads
  import opened GroupedHeads

  type Tensor4<T> = seq<seq<seq<seq<T>>>>

  /** The last k with idx[k] == p, or -1 when p does not occur. */
  function LastIndexOf(idx: seq<int>, p: int): (k: int)
    ensures -1 <= k < |idx|
    ensures k >= 0 ==> idx[k] == p && forall j :: k < j < |idx| ==> idx[j] != p
    ensures k == -1 <==> p !in idx
  {
    if |idx| == 0 then -1
    else if idx[|idx| - 1] == p then |idx| - 1
    else LastIndexOf(idx[..|idx| - 1], p)
  }

  /** The value a cell at position p holds after the writes idx with source
      row srcRow: the last write to p, or its old value. */
  function CopiedCell<S>(before: S, idx: seq<int>, srcRow: seq<S>, p: int): S
    requires |srcRow| >= |idx|
  {
    var k := LastIndexOf(idx, p);
    if k >= 0 then srcRow[k] else before
  }

  /** Specification of buf.index_copy(1, idx, src) on a (batch x position)
      grid: src[b][i] goes to position idx[i] of batch slot b, a later write
      to the same position wins, and every other position keeps its value. */
  function IndexCopy<S>(buf: seq<seq<S>>, idx: seq<int>, src: seq<seq<S>>): (r: seq<seq<S>>)
    requires |src| == |buf| && forall b :: 0 <= b < |src| ==> |src[b]| == |idx|
    ensures |r| == |buf| && forall b :: 0 <= b < |buf| ==> |r[b]| == |buf[b]|
    ensures forall b, p :: 0 <= b < |buf| && 0 <= p < |buf[b]| && p !in idx ==> r[b][p] == buf[b][p]
    ensures forall b, i ::
      0 <= b < |buf| && 0 <= i < |idx| && 0 <= idx[i] < |buf[b]| &&
      (forall j :: i < j < |idx| ==> idx[j] != idx[i]) ==>
      r[b][idx[i]] == src[b][i]
  {
    var r := seq(|buf|, b requires 0 <= b < |buf| =>
      seq(|buf[b]|, p requires 0 <= p < |buf[b]| => CopiedCell(buf[b][p], idx, src[b], p)));
    forall b, i | 0 <= b < |buf| && 0 <= i < |idx| && 0 <= idx[i] < |buf[b]| &&
        (forall j :: i < j < |idx| ==> idx[j] != idx[i])
      ensures r[b][idx[i]] == src[b][i]
    {
      assert LastIndexOf(idx, idx[i]) == i;
    }
    r
  }

  /** With pairwise distinct positions (the normal case) every written
      position holds exactly the value written to it. */
  lemma {:induction false} IndexCopyDistinct<S>(buf: seq<seq<S>>, idx: seq<int>, src: seq<seq<S>>)
    requires |src| == |buf| && forall b :: 0 <= b < |src| ==> |src[b]| == |idx|
    requires Distinct(idx)
    ensures forall b, i :: 0 <= b < |buf| && 0 <= i < |idx| && 0 <= idx[i] < |buf[b]| ==>
      IndexCopy(buf, idx, src)[b][idx[i]] == src[b][i]
  {
    forall b, i | 0 <= b < |buf| && 0 <= i < |idx| && 0 <= idx[i] < |buf[b]|
      ensures IndexCopy(buf, idx, src)[b][idx[i]] == src[b][i]
    {
      assert forall j :: i < j < |idx| ==> idx[j] != idx[i];
    }
  }

  /** Writing a cache of slabs of one shape with slabs of the same shape
      keeps the cache's shape. */
  lemma {:induction false} IndexCopyKeepsShape<T>(buf: Tensor4<T>, idx: seq<int>, src: Tensor4<T>,
                                                  d0: nat, d1: nat, d2: nat, d3: nat)
    requires IsTensor4(buf, d0, d1, d2, d3) && IsTensor4(src, d0, |idx|, d2, d3)
    ensures IsTensor4(IndexCopy(buf, idx, src), d0, d1, d2, d3)
  {
    var r := IndexCopy(buf, idx, src);
    forall b, p | 0 <= b < d0 && 0 <= p < d1 ensures IsMatrix(r[b][p], d2, d3) {
      var k := LastIndexOf(idx, p);
      assert r[b][p] == (if k >= 0 then src[b][k] else buf[b][p]);
    }
  }

  /** The last occurrence in a concatenation lies in the second part when p
      occurs there, and in the first part otherwise. */
  lemma {:induction false} LastIndexOfConcat(i1: seq<int>, i2: seq<int>, p: int)
    ensures LastIndexOf(i1 + i2, p) ==
      if p in i2 then |i1| + LastIndexOf(i2, p) else LastIndexOf(i1, p)
  {
    if |i2| == 0 {
      assert i1 + i2 == i1;
    } else {
      var n := |i2|;
      if i2[n - 1] != p {
        var front := i2[..n - 1];
        assert (i1 + i2)[..|i1 + i2| - 1] == i1 + front;
        LastIndexOfConcat(i1, front, p);
        assert p in i2 <==> p in front by {
          assert i2 == front + [i2[n - 1]];
        }
      }
    }
  }

  /** Columns lo .. hi of every row of a (batch x window) source. */
  function Columns<S>(src: seq<seq<S>>, lo: nat, hi: nat): (r: seq<seq<S>>)
    requires lo <= hi && forall b :: 0 <= b < |src| ==> hi <= |src[b]|
    ensures |r| == |src| && forall b :: 0 <= b < |src| ==> |r[b]| == hi - lo
  {
    seq(|src|, b requires 0 <= b < |src| => src[b][lo..hi])
  }

  /** Splitting one call into two consecutive calls, the first writing the
      first k positions and the second the rest, leaves the same cache. */
  lemma {:induction false} IndexCopySplit<S>(buf: seq<seq<S>>, idx: seq<int>, src: seq<seq<S>>, k: nat)
    requires |src| == |buf| && forall b :: 0 <= b < |src| ==> |src[b]| == |idx|
    requires k <= |idx|
    ensures IndexCopy(buf, idx, src) ==
      IndexCopy(IndexCopy(buf, idx[..k], Columns(src, 0, k)), idx[k..], Columns(src, k, |idx|))
  {
    var i1, i2 := idx[..k], idx[k..];
    var s1, s2 := Columns(src, 0, k), Columns(src, k, |idx|);
    var mid := IndexCopy(buf, i1, s1);
    var lhs, rhs := IndexCopy(buf, idx, src), IndexCopy(mid, i2, s2);
    assert idx == i1 + i2;
    forall b | 0 <= b < |buf| ensures lhs[b] == rhs[b] {
      forall p | 0 <= p < |buf[b]| ensures lhs[b][p] == rhs[b][p] {
        LastIndexOfConcat(i1, i2, p);
        assert lhs[b][p] == CopiedCell(buf[b][p], idx, src[b], p);
        assert mid[b][p] == CopiedCell(buf[b][p], i1, s1[b], p);
        assert rhs[b][p] == CopiedCell(mid[b][p], i2, s2[b], p);
      }
    }
  }

  /** Incremental decoding: the cache after one window is written position
      by position, one call per position, front to back. */
  function DecodeStepwise<S>(buf: seq<seq<S>>, idx: seq<int>, src: seq<seq<S>>): seq<seq<S>>
    requires |src| == |buf| && forall b :: 0 <= b < |src| ==> |src[b]| == |idx|
    decreases |idx|
  {
    if |idx| == 0 then buf
    else DecodeStepwise(IndexCopy(buf, idx[..1], Columns(src, 0, 1)), idx[1..], Columns(src, 1, |idx|))
  }

  /** Prefilling a window in one call leaves the same cache as decoding it
      one position per call. */
  lemma {:induction false} PrefillEqualsStepwise<S>(buf: seq<seq<S>>, idx: seq<int>, src: seq<seq<S>>)
    requires |src| == |buf| && forall b :: 0 <= b < |src| ==> |src[b]| == |idx|
    ensures IndexCopy(buf, idx, src) == DecodeStepwise(buf, idx, src)
    decreases |idx|
  {
    if |idx| == 0 {
      var r := IndexCopy(buf, idx, src);
      forall b | 0 <= b < |buf| ensures r[b] == buf[b] {}
    } else {
      IndexCopySplit(buf, idx, src, 1);
      var mid := IndexCopy(buf, idx[..1], Columns(src, 0, 1));
      PrefillEqualsStepwise(mid, idx[1..], Columns(src, 1, |idx|));
    }
  }

  /** Across two calls a position holds the value of the last call that
      wrote it; positions neither call wrote keep their value. */
  lemma {:induction false} TwoCallsLastWriteWins<S>(buf: seq<seq<S>>, i1: seq<int>, s1: seq<seq<S>>,
                                                    i2: seq<int>, s2: seq<seq<S>>, b: nat, p: nat)
    requires |s1| == |buf| && forall c :: 0 <= c < |s1| ==> |s1[c]| == |i1|
    requires |s2| == |buf| && forall c :: 0 <= c < |s2| ==> |s2[c]| == |i2|
    requires b < |buf| && p < |buf[b]|
    ensures var after := IndexCopy(IndexCopy(buf, i1, s1), i2, s2);
      after[b][p] ==
        if p in i2 then s2[b][LastIndexOf(i2, p)]
        else if p in i1 then s1[b][LastIndexOf(i1, p)]
        else buf[b][p]
  {
  }

  /** A buffer of the given shape with every element `zero` (torch.zeros). */
  function Zeros<T>(d0: nat, d1: nat, d2: nat, d3: nat, zero: T): (z: Tensor4<T>)
    ensures IsTensor4(z, d0, d1, d2, d3)
  {
    seq(d0, _ => seq(d1, _ => seq(d2, _ => seq(d3, _ => zero))))
  }

  /** The cells of a 2-D array as a value, batch slot first. */
  function Grid<S>(a: array2<S>): (g: seq<seq<S>>)
    reads a
    ensures |g| == a.Length0 && forall b :: 0 <= b < a.Length0 ==> |g[b]| == a.Length1
    ensures forall b, p :: 0 <= b < a.Length0 && 0 <= p < a.Length1 ==> g[b][p] == a[b, p]
  {
    seq(a.Length0, b requires 0 <= b < a.Length0 reads a =>
      seq(a.Length1, p requires 0 <= p < a.Length1 reads a => a[b, p]))
  }

  /** index_copy into a buffer: writes src[b][i] at (b, idx[i]) for every
      window entry i and batch slot b, in order. */
  method IndexCopyInPlace<S>(buf: array2<S>, idx: seq<int>, src: seq<seq<S>>)
    requires |src| == buf.Length0 && forall b :: 0 <= b < |src| ==> |src[b]| == |idx|
    requires AllBelow(idx, buf.Length1)
    modifies buf
    ensures Grid(buf) == IndexCopy(old(Grid(buf)), idx, src)
  {
    ghost var before := Grid(buf);
    for i := 0 to |idx|
      invariant forall b, p :: 0 <= b < buf.Length0 && 0 <= p < buf.Length1 ==>
        buf[b, p] == CopiedCell(before[b][p], idx[..i], src[b], p)
    {
      for b := 0 to buf.Length0
        invariant forall c, p :: 0 <= c < buf.Length0 && 0 <= p < buf.Length1 ==>
          buf[c, p] == if c < b && p == idx[i] then src[c][i]
                       else CopiedCell(before[c][p], idx[..i], src[c], p)
      {
        buf[b, idx[i]] := src[b][i];
      }
      forall c, p | 0 <= c < buf.Length0 && 0 <= p < buf.Length1
        ensures CopiedCell(before[c][p], idx[..i + 1], src[c], p) ==
          if p == idx[i] then src[c][i] else CopiedCell(before[c][p], idx[..i], src[c], p)
      {
        assert idx[..i + 1][..i] == idx[..i];
      }
    }
    assert idx[..|idx|] == idx;
    ghost var after := IndexCopy(before, idx, src);
    forall b | 0 <= b < buf.Length0 ensures Grid(buf)[b] == after[b] {}
  }

  /** One Attention layer's cache state and its head layout. */
  class Attention<T> {
    const layout: HeadLayout
    const maxBatchSize: nat
    const maxSeqLen: nat
    const cacheK: array2<seq<seq<T>>>
    const cacheV: array2<seq<seq<T>>>

    /** Both buffers are distinct arrays of shape
        (max_batch_size, max_seq_len, n_local_kv_heads, head_dim). */
    ghost predicate Valid()
      reads cacheK, cacheV
    {
      && cacheK != cacheV
      && cacheK.Length0 == cacheV.Length0 == maxBatchSize
      && cacheK.Length1 == cacheV.Length1 == maxSeqLen
      && IsTensor4(Grid(cacheK), maxBatchSize, maxSeqLen, layout.nLocalKvHeads, layout.headDim)
      && IsTensor4(Grid(cacheV), maxBatchSize, maxSeqLen, layout.nLocalKvHeads, layout.headDim)
    }

    /** A projection of this call fits the cache: shape
        (max_batch_size, |input_indexes|, n_local_kv_heads, head_dim). */
    predicate FitsWindow(x: Tensor4<T>, inputIndexes: seq<int>)
    {
      IsTensor4(x, maxBatchSize, |inputIndexes|, layout.nLocalKvHeads, layout.headDim)
    }

    /** Attention.__init__: the head layout, then two zero-filled caches. */
    constructor (args: ModelArgs, worldSize: nat, zero: T)
      requires AttentionHeads(args, worldSize).Ok?
      ensures layout == AttentionHeads(args, worldSize).value
      ensures maxBatchSize == args.maxBatchSize && maxSeqLen == args.maxSeqLen
      ensures Valid() && fresh(cacheK) && fresh(cacheV)
      ensures Grid(cacheK) == Zeros(maxBatchSize, maxSeqLen, layout.nLocalKvHeads, layout.headDim, zero)
      ensures Grid(cacheV) == Zeros(maxBatchSize, maxSeqLen, layout.nLocalKvHeads, layout.headDim, zero)
    {
      var l := AttentionHeads(args, worldSize).value;
      layout := l;
      maxBatchSize := args.maxBatchSize;
      maxSeqLen := args.maxSeqLen;
      var slab := seq(l.nLocalKvHeads, _ => seq(l.headDim, _ => zero));
      cacheK := new seq<seq<T>>[args.maxBatchSize, args.maxSeqLen]((_, _) => slab);
      cacheV := new seq<seq<T>>[args.maxBatchSize, args.maxSeqLen]((_, _) => slab);
      new;
      ghost var z := Zeros(maxBatchSize, maxSeqLen, layout.nLocalKvHeads, layout.headDim, zero);
      forall b | 0 <= b < maxBatchSize ensures Grid(cacheK)[b] == z[b] && Grid(cacheV)[b] == z[b] {}
    }

    /** The repeated key/value heads line up with the query heads: the
        local key/value heads times n_rep are the local query heads. */
    predicate HeadsMatch()
    {
      layout.nLocalKvHeads * layout.nRep == layout.nLocalHeads
    }

    /** index_copy accepts this call's keys and values: both have the shape
        of a window of the cache and every position is in [0, max_seq_len). */
    predicate Accepts(xk: Tensor4<T>, xv: Tensor4<T>, inputIndexes: seq<int>)
    {
      FitsWindow(xk, inputIndexes) && FitsWindow(xv, inputIndexes) && AllBelow(inputIndexes, maxSeqLen)
    }

    /** Both cache updates of Attention.forward, key cache first. */
    method Write(xk: Tensor4<T>, xv: Tensor4<T>, inputIndexes: seq<int>)
      requires Valid() && Accepts(xk, xv, inputIndexes)
      modifies cacheK, cacheV
      ensures Valid()
      ensures Grid(cacheK) == IndexCopy(old(Grid(cacheK)), inputIndexes, xk)
      ensures Grid(cacheV) == IndexCopy(old(Grid(cacheV)), inputIndexes, xv)
    {
      IndexCopyKeepsShape(Grid(cacheK), inputIndexes, xk,
                          maxBatchSize, maxSeqLen, layout.nLocalKvHeads, layout.headDim);
      IndexCopyInPlace(cacheK, inputIndexes, xk);
      IndexCopyKeepsShape(Grid(cacheV), inputIndexes, xv,
                          maxBatchSize, maxSeqLen, layout.nLocalKvHeads, layout.headDim);
      IndexCopyInPlace(cacheV, inputIndexes, xv);
    }

    /** The cache part of Attention.forward, given this call's projected and
        rotated keys xk and values xv. A malformed xk or xv (the views come
        before either index_copy) or a position outside [0, max_seq_len)
        raises with nothing written. Otherwise both caches are written at
        input_indexes and read back whole, with the key/value heads repeated
        n_rep times; when those do not line up with the query heads the
        score matmul (or the final view, for n_rep == 0) raises after both
        writes. */
    method Forward(xk: Tensor4<T>, xv: Tensor4<T>, inputIndexes: seq<int>)
      returns (r: Result<(Tensor4<T>, Tensor4<T>)>)
      requires Valid()
      modifies cacheK, cacheV
      ensures Valid()
      ensures !(FitsWindow(xk, inputIndexes) && FitsWindow(xv, inputIndexes)) ==>
        r == Err(ShapeMismatch) && Grid(cacheK) == old(Grid(cacheK)) && Grid(cacheV) == old(Grid(cacheV))
      ensures FitsWindow(xk, inputIndexes) && FitsWindow(xv, inputIndexes) && !AllBelow(inputIndexes, maxSeqLen) ==>
        r == Err(IndexOutOfRange) && Grid(cacheK) == old(Grid(cacheK)) && Grid(cacheV) == old(Grid(cacheV))
      ensures Accepts(xk, xv, inputIndexes) ==>
        && Grid(cacheK) == IndexCopy(old(Grid(cacheK)), inputIndexes, xk)
        && Grid(cacheV) == IndexCopy(old(Grid(cacheV)), inputIndexes, xv)
      ensures Accepts(xk, xv, inputIndexes) && !HeadsMatch() ==> r == Err(ShapeMismatch)
      ensures Accepts(xk, xv, inputIndexes) && HeadsMatch() ==>
        && r == Ok((RepeatKv(Grid(cacheK), layout.nRep), RepeatKv(Grid(cacheV), layout.nRep)))
        && IsTensor4(r.value.0, maxBatchSize, maxSeqLen, layout.nLocalHeads, layout.headDim)
        && IsTensor4(r.value.1, maxBatchSize, maxSeqLen, layout.nLocalHeads, layout.headDim)
      ensures forall b, p :: 0 <= b < maxBatchSize && 0 <= p < maxSeqLen && p !in inputIndexes ==>
        cacheK[b, p] == old(cacheK[b, p]) && cacheV[b, p] == old(cacheV[b, p])
    {
      if !(FitsWindow(xk, inputIndexes) && FitsWindow(xv, inputIndexes)) {
        return Err(ShapeMismatch);
      }
      if !AllBelow(inputIndexes, maxSeqLen) {
        return Err(IndexOutOfRange);
      }
      Write(xk, xv, inputIndexes);
      if !HeadsMatch() {
        return Err(ShapeMismatch);
      }
      var keys := RepeatKv(Grid(cacheK), layout.nRep);
      var values := RepeatKv(Grid(cacheV), layout.nRep);
      RepeatKvHeads(Grid(cacheK), layout.nRep, maxBatchSize, maxSeqLen, layout.nLocalKvHeads, layout.headDim);
      RepeatKvHeads(Grid(cacheV), layout.nRep, maxBatchSize, maxSeqLen, layout.nLocalKvHeads, layout.headDim);
      r := Ok((keys, values));
    }
  }
}
