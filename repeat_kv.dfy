/** repeat_kv: grouped-query attention lets one key/value head serve n_rep
    consecutive query heads. The source builds the repeated tensor with
    expand + reshape; its doc comment says that this is
    torch.repeat_interleave along the head axis. Here a tensor of shape
    (batch, seq, heads, head_dim) is a sequence of sequences of per-head
    vectors of a generic type H. */
module GroupedHeads {
  import opened Common
  import opened Arith

  /** Reference definition: torch.repeat_interleave(heads, n) on one axis,
      where output element h is input element h / n. */
  function RepeatInterleave<H>(heads: seq<H>, n: nat): (r: seq<H>)
    ensures |r| == |heads| * n
  {
    seq(|heads| * n, h requires 0 <= h < |heads| * n =>
      DivBelow(h, n, |heads|);
      heads[h / n])
  }

  /** x[:, :, :, None, :].expand(..., n_rep, ...) on one (batch, position):
      every head becomes a group of n copies of itself. */
  function ExpandHeads<H>(heads: seq<H>, n: nat): (r: seq<seq<H>>)
    ensures |r| == |heads|
    ensures forall g :: 0 <= g < |heads| ==> |r[g]| == n
  {
    seq(|heads|, g requires 0 <= g < |heads| => seq(n, _ => heads[g]))
  }

  /** .reshape(..., n_kv_heads * n_rep, ...): the group axis is merged into
      the head axis in row-major order. */
  function Flatten<H>(groups: seq<seq<H>>): seq<H>
  {
    if |groups| == 0 then [] else groups[0] + Flatten(groups[1..])
  }

  /** repeat_kv: the identity when n_rep == 1, expand + reshape otherwise. */
  function RepeatKv<H>(x: seq<seq<seq<H>>>, nRep: nat): (r: seq<seq<seq<H>>>)
    ensures |r| == |x|
    ensures forall b :: 0 <= b < |x| ==> |r[b]| == |x[b]|
    ensures nRep == 1 ==> r == x
  {
    if nRep == 1 then x
    else seq(|x|, b requires 0 <= b < |x| =>
           seq(|x[b]|, s requires 0 <= s < |x[b]| => Flatten(ExpandHeads(x[b][s], nRep))))
  }

  /** Reshaping n-wide groups keeps every element: the flattened sequence
      has |groups| * n elements. */
  lemma {:induction false} FlattenLength<H>(groups: seq<seq<H>>, n: nat)
    requires forall g :: 0 <= g < |groups| ==> |groups[g]| == n
    ensures |Flatten(groups)| == |groups| * n
  {
    if |groups| > 0 {
      FlattenLength(groups[1..], n);
      MulDistributes(|groups| - 1, 1, n);
    }
  }

  /** Element j of the flattened sequence is element j % n of group j / n. */
  lemma {:induction false} FlattenAt<H>(groups: seq<seq<H>>, n: nat, j: nat)
    requires forall g :: 0 <= g < |groups| ==> |groups[g]| == n
    requires j < |groups| * n
    ensures n > 0 && j / n < |groups| && |Flatten(groups)| == |groups| * n
    ensures Flatten(groups)[j] == groups[j / n][j % n]
  {
    DivBelow(j, n, |groups|);
    FlattenLength(groups, n);
    var rest := groups[1..];
    FlattenLength(rest, n);
    assert Flatten(groups) == groups[0] + Flatten(rest);
    if j < n {
      DivModUnique(j, n, 0, j);
    } else {
      var j' := j - n;
      assert j' < |rest| * n by { MulDistributes(|rest|, 1, n); }
      FlattenAt(rest, n, j');
      ShiftDiv(j', n);
    }
  }

  /** expand + reshape is repeat_interleave: the implementation in the source
      agrees with its doc comment. */
  lemma {:induction false} ExpandFlattenIsRepeatInterleave<H>(heads: seq<H>, n: nat)
    ensures Flatten(ExpandHeads(heads, n)) == RepeatInterleave(heads, n)
  {
    var e := ExpandHeads(heads, n);
    FlattenLength(e, n);
    var lhs, rhs := Flatten(e), RepeatInterleave(heads, n);
    assert |lhs| == |rhs|;
    forall j | 0 <= j < |lhs| ensures lhs[j] == rhs[j] {
      FlattenAt(e, n, j);
    }
  }

  /** The n_rep == 1 shortcut returns what the general path would. */
  lemma {:induction false} RepeatInterleaveOnce<H>(heads: seq<H>)
    ensures RepeatInterleave(heads, 1) == heads
  {
    var r := RepeatInterleave(heads, 1);
    assert |r| == |heads|;
    forall h | 0 <= h < |heads| ensures r[h] == heads[h] {
      assert h / 1 == h;
    }
  }

  /** For every n_rep, repeat_kv applies repeat_interleave on the head axis
      at every (batch, position). */
  lemma {:induction false} RepeatKvIsRepeatInterleave<H>(x: seq<seq<seq<H>>>, nRep: nat)
    ensures forall b, s :: 0 <= b < |x| && 0 <= s < |x[b]| ==>
      RepeatKv(x, nRep)[b][s] == RepeatInterleave(x[b][s], nRep)
  {
    forall b, s | 0 <= b < |x| && 0 <= s < |x[b]|
      ensures RepeatKv(x, nRep)[b][s] == RepeatInterleave(x[b][s], nRep)
    {
      if nRep == 1 {
        RepeatInterleaveOnce(x[b][s]);
      } else {
        ExpandFlattenIsRepeatInterleave(x[b][s], nRep);
      }
    }
  }

  /** One (batch, position) slice: n_kv_heads vectors of width head_dim
      become n_kv_heads * n_rep vectors, head h holding input head h / n_rep. */
  lemma {:induction false} RepeatInterleaveRow<T>(row: seq<seq<T>>, nRep: nat, nKv: nat, headDim: nat)
    requires IsMatrix(row, nKv, headDim)
    ensures IsMatrix(RepeatInterleave(row, nRep), nKv * nRep, headDim)
    ensures forall h :: 0 <= h < nKv * nRep ==>
      nRep > 0 && h / nRep < nKv && RepeatInterleave(row, nRep)[h] == row[h / nRep]
  {
    var r := RepeatInterleave(row, nRep);
    forall h | 0 <= h < nKv * nRep
      ensures nRep > 0 && h / nRep < nKv && r[h] == row[h / nRep]
    {
      DivBelow(h, nRep, nKv);
    }
  }

  /** Shapes and contents: a (bs, slen, n_kv_heads, head_dim) tensor becomes
      (bs, slen, n_kv_heads * n_rep, head_dim); output head h holds input
      head h / n_rep, so every head of a group of n_rep sees identical data. */
  lemma {:induction false} RepeatKvHeads<T>(x: seq<seq<seq<seq<T>>>>, nRep: nat,
                                            bs: nat, slen: nat, nKv: nat, headDim: nat)
    requires IsTensor4(x, bs, slen, nKv, headDim)
    ensures IsTensor4(RepeatKv(x, nRep), bs, slen, nKv * nRep, headDim)
    ensures forall b, s, h :: 0 <= b < bs && 0 <= s < slen && 0 <= h < nKv * nRep ==>
      nRep > 0 && h / nRep < nKv && RepeatKv(x, nRep)[b][s][h] == x[b][s][h / nRep]
    ensures forall b, s, h1, h2 ::
      0 <= b < bs && 0 <= s < slen && 0 <= h1 < nKv * nRep && 0 <= h2 < nKv * nRep &&
      h1 / nRep == h2 / nRep ==>
      RepeatKv(x, nRep)[b][s][h1] == RepeatKv(x, nRep)[b][s][h2]
  {
    RepeatKvIsRepeatInterleave(x, nRep);
    forall b, s | 0 <= b < bs && 0 <= s < slen
      ensures IsMatrix(RepeatKv(x, nRep)[b][s], nKv * nRep, headDim)
      ensures forall h :: 0 <= h < nKv * nRep ==>
        nRep > 0 && h / nRep < nKv && RepeatKv(x, nRep)[b][s][h] == x[b][s][h / nRep]
    {
      RepeatInterleaveRow(x[b][s], nRep, nKv, headDim);
    }
  }

  /** Partner of repeat_kv: the first head of every group is the original
      key/value head, so no head is lost or reordered. */
  lemma {:induction false} RepeatKvFirstOfGroups<T>(x: seq<seq<seq<seq<T>>>>, nRep: nat,
                                                    bs: nat, slen: nat, nKv: nat, headDim: nat)
    requires IsTensor4(x, bs, slen, nKv, headDim) && nRep > 0
    ensures IsTensor4(RepeatKv(x, nRep), bs, slen, nKv * nRep, headDim)
    ensures forall b, s, g :: 0 <= b < bs && 0 <= s < slen && 0 <= g < nKv ==>
      g * nRep < nKv * nRep && RepeatKv(x, nRep)[b][s][g * nRep] == x[b][s][g]
  {
    RepeatKvHeads(x, nRep, bs, slen, nKv, headDim);
    forall b, s, g | 0 <= b < bs && 0 <= s < slen && 0 <= g < nKv
      ensures g * nRep < nKv * nRep && RepeatKv(x, nRep)[b][s][g * nRep] == x[b][s][g]
    {
      GroupStart(g, nRep, nKv);
    }
  }
}
