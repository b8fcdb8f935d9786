/** The hidden-width rule of FeedForward.__init__: two thirds of the
    requested width, optionally scaled by ffn_dim_multiplier, then rounded
    up to a multiple of multiple_of. TransformerBlock asks for 4 * dim. */
module FeedForward {
  import opened Common
  import opened Arith
  import opened Heads

  /** Python's int() on a number: truncation toward zero. */
  function TruncToInt(x: real): (n: int)
    ensures x >= 0.0 ==> n >= 0 && n as real <= x < n as real + 1.0
    ensures x < 0.0 ==> n <= 0 && n as real - 1.0 < x <= n as real
  {
    if x >= 0.0 then x.Floor else -((-x).Floor)
  }

  /** The width before rounding: int(2 * hidden_dim / 3), then
      int(ffn_dim_multiplier * hidden_dim) when a multiplier is configured. */
  function ScaledHidden(hiddenDim: nat, multiplier: Option<real>): (h: int)
    ensures multiplier.None? ==> h >= 0 && 3 * h <= 2 * hiddenDim < 3 * h + 3
    ensures multiplier.Some? ==>
      var twoThirds := (2 * hiddenDim) / 3;
      TruncToInt(multiplier.value * twoThirds as real) == h
  {
    var twoThirds := (2 * hiddenDim) / 3;
    match multiplier
    case None => twoThirds
    case Some(m) => TruncToInt(m * twoThirds as real)
  }

  /** multiple_of * ((hidden_dim + multiple_of - 1) // multiple_of): the
      result is a multiple of multiple_of, at least the scaled width and
      less than one multiple above it. A zero multiple_of raises in `//`. */
  function FfnHiddenDim(hiddenDim: nat, multipleOf: nat, multiplier: Option<real>): (r: Result<int>)
    ensures r.Ok? <==> multipleOf > 0
    ensures multipleOf == 0 ==> r == Err(ZeroDivision)
    ensures r.Ok? ==>
      var h := ScaledHidden(hiddenDim, multiplier);
      r.value % multipleOf == 0 && h <= r.value < h + multipleOf
  {
    if multipleOf == 0 then Err(ZeroDivision)
    else
      var h := ScaledHidden(hiddenDim, multiplier);
      var q := (h + multipleOf - 1) / multipleOf;
      RoundUpBounds(h, multipleOf);
      Ok(multipleOf * q)
  }

  /** Rounding up with floor division lands in [h, h + m). */
  lemma RoundUpBounds(h: int, m: nat)
    requires m > 0
    ensures var q := (h + m - 1) / m;
      (m * q) % m == 0 && h <= m * q < h + m
  {
    var q := (h + m - 1) / m;
    var rem := (h + m - 1) % m;
    assert h + m - 1 == m * q + rem;
    assert (m * q) % m == 0 by { MulModZero(m, q); }
  }

  /** The FeedForward width of a TransformerBlock: the rule applied to 4 * dim. */
  function BlockHiddenDim(args: ModelArgs): Result<int>
  {
    FfnHiddenDim(4 * args.dim, args.multipleOf, args.ffnDimMultiplier)
  }

  /** The result is the least multiple of multiple_of that is not below the
      scaled width: every other such multiple is at least as large. */
  lemma {:induction false} HiddenDimIsLeastMultiple(hiddenDim: nat, multipleOf: nat,
                                                    multiplier: Option<real>, k: int)
    requires multipleOf > 0
    requires k % multipleOf == 0 && k >= ScaledHidden(hiddenDim, multiplier)
    ensures FfnHiddenDim(hiddenDim, multipleOf, multiplier).Ok?
    ensures k >= FfnHiddenDim(hiddenDim, multipleOf, multiplier).value
  {
    var r := FfnHiddenDim(hiddenDim, multipleOf, multiplier).value;
    MultiplesApart(multipleOf, r, k);
  }

  /** The default configuration (dim 4096, multiple_of 256) yields the
      familiar width 11008. */
  lemma DefaultHiddenDim()
    ensures BlockHiddenDim(DefaultArgs) == Ok(11008)
  {}

  /** A multiplier of 1.3 with dim 8192 and multiple_of 4096 yields 28672:
      int(1.3 * 21845) is 28398, rounded up to 7 * 4096. */
  lemma ScaledHiddenDimExample()
    ensures FfnHiddenDim(4 * 8192, 4096, Some(1.3)) == Ok(28672)
  {
    assert (2 * (4 * 8192)) / 3 == 21845;
    assert 1.3 * 21845 as real == 28398.5;
    assert TruncToInt(28398.5) == 28398;
    assert (28398 + 4096 - 1) / 4096 == 7;
  }
}
