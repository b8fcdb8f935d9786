/** Shared vocabulary of the model: optional values, results carrying the
    exceptions the Python code raises, and shape predicates for tensors
    represented as nested sequences over a generic element type. */
module Common {

  datatype Option<+V> = None | Some(value: V)

  /** The exceptions the modelled code can raise. */
  datatype Error =
    | ZeroDivision                                  // Python ZeroDivisionError
    | NotDivisible(numerator: nat, denominator: nat) // divide_and_check_no_remainder
    | BatchSizeMismatch                              // assert _bsz == max_batch_size
    | IndexOutOfRange                                // index_select / index_copy / [0] on an empty index
    | ShapeMismatch                                  // index_copy source shape, view size
    | AssertionFailed                                // the asserts of reshape_for_broadcast

  datatype Result<+R> = Ok(value: R) | Err(error: Error)

  /** A (rows x cols) matrix. */
  predicate IsMatrix<V>(m: seq<seq<V>>, rows: nat, cols: nat)
  {
    |m| == rows && forall i :: 0 <= i < rows ==> |m[i]| == cols
  }

  /** A 4-D tensor of shape (d0, d1, d2, d3), outermost axis first. */
  predicate IsTensor4<V>(t: seq<seq<seq<seq<V>>>>, d0: nat, d1: nat, d2: nat, d3: nat)
  {
    |t| == d0 &&
    forall b :: 0 <= b < d0 ==>
      |t[b]| == d1 && forall s :: 0 <= s < d1 ==> IsMatrix(t[b][s], d2, d3)
  }

  /** Every index lies in [0, n). */
  predicate AllBelow(idx: seq<int>, n: int)
  {
    forall i :: 0 <= i < |idx| ==> 0 <= idx[i] < n
  }

  /** Consecutive absolute positions idx[0], idx[0] + 1, ... */
  predicate Contiguous(idx: seq<int>)
  {
    forall k :: 0 <= k < |idx| ==> idx[k] == idx[0] + k
  }

  /** Pairwise distinct indexes. */
  ghost predicate Distinct(idx: seq<int>)
  {
    forall i, j :: 0 <= i < |idx| && 0 <= j < |idx| && i != j ==> idx[i] != idx[j]
  }

  /** torch's index_select along the leading axis: gathers xs[idx[0]],
      xs[idx[1]], ... and raises on any index outside [0, |xs|). */
  function IndexSelect<V>(xs: seq<V>, idx: seq<int>): (r: Result<seq<V>>)
    ensures r.Ok? <==> AllBelow(idx, |xs|)
    ensures r.Err? ==> r.error == IndexOutOfRange
    ensures r.Ok? ==> |r.value| == |idx| && forall k :: 0 <= k < |idx| ==> r.value[k] == xs[idx[k]]
  {
    if AllBelow(idx, |xs|) then Ok(seq(|idx|, k requires 0 <= k < |idx| => xs[idx[k]]))
    else Err(IndexOutOfRange)
  }
}
