/** The shape side of rotary position encoding: the precomputed table of
    rotation coefficients (their complex values are floating point and
    enter as a parameter) and the broadcast shape of reshape_for_broadcast. */
module Rotary {
  import opened Common

  /** torch.arange(0, dim, 2)[: dim // 2]: the even exponents 0, 2, 4, ...;
      each one starts a (real, imaginary) pair that lies inside the head. */
  function FrequencyExponents(dim: nat): (e: seq<nat>)
    ensures |e| == dim / 2
    ensures forall i :: 0 <= i < |e| ==> e[i] == 2 * i && e[i] + 1 < dim
  {
    var arange := seq((dim + 1) / 2, i => 2 * i);
    arange[..dim / 2]
  }

  /** precompute_freqs_cis(dim, end): row t, column i holds the unit complex
      number of angle t * theta^(-e_i / dim); `polar(t, e_i)` stands for that
      floating-point value. */
  function PrecomputeFreqsCis<C>(dim: nat, end: nat, polar: (nat, nat) -> C): (table: seq<seq<C>>)
    ensures IsMatrix(table, end, dim / 2)
    ensures forall t, i :: 0 <= t < end && 0 <= i < dim / 2 ==> table[t][i] == polar(t, 2 * i)
  {
    var e := FrequencyExponents(dim);
    seq(end, (t: nat) => seq(|e|, i requires 0 <= i < |e| => polar(t, e[i])))
  }

  /** Number of elements of a tensor of the given shape. */
  function Numel(shape: seq<nat>): nat
  {
    if |shape| == 0 then 1 else shape[0] * Numel(shape[1..])
  }

  /** [d if i == 1 or i == ndim - 1 else 1 for i, d in enumerate(x.shape)] */
  function BroadcastShape(xShape: seq<nat>): (shape: seq<nat>)
    ensures |shape| == |xShape|
  {
    seq(|xShape|, i requires 0 <= i < |xShape| =>
      if i == 1 || i == |xShape| - 1 then xShape[i] else 1)
  }

  /** reshape_for_broadcast on shapes: asserts that x has at least two axes
      and that the table is (x.shape[1], x.shape[-1]), then views the table
      with every other axis set to 1; the view raises when the element
      counts differ. */
  function ReshapeForBroadcast(freqsShape: (nat, nat), xShape: seq<nat>): (r: Result<seq<nat>>)
    ensures |xShape| < 2 ==> r == Err(AssertionFailed)
    ensures |xShape| >= 2 && freqsShape != (xShape[1], xShape[|xShape| - 1]) ==> r == Err(AssertionFailed)
    ensures r.Ok? ==>
      && |r.value| == |xShape|
      && r.value[1] == xShape[1]
      && r.value[|xShape| - 1] == xShape[|xShape| - 1]
      && (forall i :: 0 <= i < |xShape| && i != 1 && i != |xShape| - 1 ==> r.value[i] == 1)
      && Numel(r.value) == freqsShape.0 * freqsShape.1
  {
    if |xShape| < 2 then Err(AssertionFailed)
    else if freqsShape != (xShape[1], xShape[|xShape| - 1]) then Err(AssertionFailed)
    else
      var shape := BroadcastShape(xShape);
      if Numel(shape) != freqsShape.0 * freqsShape.1 then Err(ShapeMismatch) else Ok(shape)
  }

  lemma {:induction false} NumelOnes(s: seq<nat>)
    requires forall i :: 0 <= i < |s| ==> s[i] == 1
    ensures Numel(s) == 1
  {
    if |s| > 0 {
      NumelOnes(s[1..]);
    }
  }

  lemma {:induction false} NumelOneAxis(s: seq<nat>, p: nat)
    requires p < |s| && forall i :: 0 <= i < |s| && i != p ==> s[i] == 1
    ensures Numel(s) == s[p]
  {
    if p == 0 {
      NumelOnes(s[1..]);
    } else {
      NumelOneAxis(s[1..], p - 1);
    }
  }

  lemma {:induction false} NumelTwoAxes(s: seq<nat>, p: nat, q: nat)
    requires p < q < |s| && forall i :: 0 <= i < |s| && i != p && i != q ==> s[i] == 1
    ensures Numel(s) == s[p] * s[q]
  {
    if p == 0 {
      NumelOneAxis(s[1..], q - 1);
    } else {
      NumelTwoAxes(s[1..], p - 1, q - 1);
    }
  }

  /** For the 4-D query/key tensors (and any tensor of three or more axes)
      the two asserts are the only way the function fails: the view always
      fits. */
  lemma {:induction false} BroadcastFitsFrom3D(xShape: seq<nat>)
    requires |xShape| >= 3
    ensures ReshapeForBroadcast((xShape[1], xShape[|xShape| - 1]), xShape).Ok?
  {
    NumelTwoAxes(BroadcastShape(xShape), 1, |xShape| - 1);
  }

  /** On a 2-D tensor axes 1 and -1 coincide: the table must be square and
      the view of its x1 * x1 entries as (1, x1) succeeds only for x1 <= 1. */
  lemma {:induction false} BroadcastOn2D(x0: nat, x1: nat)
    ensures ReshapeForBroadcast((x1, x1), [x0, x1]).Ok? <==> x1 <= 1
  {
    var shape := BroadcastShape([x0, x1]);
    assert shape == [1, x1];
    assert Numel(shape) == x1 by {
      assert Numel(shape[1..]) == x1 * Numel([]);
    }
    if x1 > 1 {
      assert x1 * x1 > x1 by { assert x1 * x1 >= 2 * x1; }
    }
  }
}
