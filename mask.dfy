/** The causal mask of Transformer.__init__ and the row selection of
    Transformer.forward. The source fills a (max_seq_len x max_seq_len)
    tensor with -inf and keeps it only strictly above the diagonal (triu
    with diagonal 1); entries are modelled as Open (0.0) or Blocked (-inf). */
module Masking {
  import opened Common

  datatype MaskEntry = Open | Blocked

  /** torch.full((n, n), v). */
  function Full(n: nat, v: MaskEntry): (m: seq<seq<MaskEntry>>)
    ensures IsMatrix(m, n, n)
  {
    seq(n, _ => seq(n, _ => v))
  }

  /** torch.triu(m, diagonal): entry (i, j) is kept when j - i >= diagonal
      and replaced by zero (Open) otherwise. */
  function Triu(m: seq<seq<MaskEntry>>, diagonal: int): (r: seq<seq<MaskEntry>>)
    ensures |r| == |m| && forall i :: 0 <= i < |m| ==> |r[i]| == |m[i]|
  {
    seq(|m|, i requires 0 <= i < |m| =>
      seq(|m[i]|, j requires 0 <= j < |m[i]| => if j - i >= diagonal then m[i][j] else Open))
  }

  /** The mask buffer: a query at position i may not see a key at position j
      exactly when j > i. */
  function CausalMask(n: nat): (m: seq<seq<MaskEntry>>)
    ensures IsMatrix(m, n, n)
    ensures forall i, j :: 0 <= i < n && 0 <= j < n ==> (m[i][j] == Blocked <==> j > i)
  {
    Triu(Full(n, Blocked), 1)
  }

  /** mask.index_select(2, input_indexes): row k of the window mask is the
      mask row of absolute position input_indexes[k]; an index outside
      [0, max_seq_len) raises. */
  function WindowMask(n: nat, idx: seq<int>): (r: Result<seq<seq<MaskEntry>>>)
    ensures r.Ok? <==> AllBelow(idx, n)
    ensures r.Ok? ==> IsMatrix(r.value, |idx|, n)
    ensures r.Ok? ==> forall k, j :: 0 <= k < |idx| && 0 <= j < n ==>
      (r.value[k][j] == Blocked <==> j > idx[k])
  {
    IndexSelect(CausalMask(n), idx)
  }

  /** Incremental decoding reads only written cache slots: if every position
      before the window was written by earlier calls and the window is
      contiguous, every key position left open for a query of the window was
      written earlier or is written by this call. */
  lemma {:induction false} OpenKeysAreWritten(n: nat, idx: seq<int>, written: set<int>)
    requires WindowMask(n, idx).Ok? && Contiguous(idx)
    requires |idx| > 0 ==> forall j :: 0 <= j < idx[0] ==> j in written
    ensures forall k, j ::
      0 <= k < |idx| && 0 <= j < n && WindowMask(n, idx).value[k][j] == Open ==>
      j in written || j in idx
  {
    var w := WindowMask(n, idx).value;
    forall k, j | 0 <= k < |idx| && 0 <= j < n && w[k][j] == Open
      ensures j in written || j in idx
    {
      assert j <= idx[k] == idx[0] + k;
      if j >= idx[0] {
        assert idx[j - idx[0]] == j;
      }
    }
  }

  /** Row k of the window mask leaves exactly the positions 0 .. idx[k] open. */
  lemma {:induction false} OpenPrefix(n: nat, idx: seq<int>, k: nat)
    requires WindowMask(n, idx).Ok? && k < |idx|
    ensures WindowMask(n, idx).value[k] ==
      seq(idx[k] + 1, _ => Open) + seq(n - idx[k] - 1, _ => Blocked)
  {
    var row := WindowMask(n, idx).value[k];
    var expected := seq(idx[k] + 1, _ => Open) + seq(n - idx[k] - 1, _ => Blocked);
    assert |row| == n == |expected|;
    forall j | 0 <= j < n ensures row[j] == expected[j] {
      if j <= idx[k] {
        assert row[j] != Blocked;
      }
    }
  }
}
