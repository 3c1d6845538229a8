/** The value of `BigFraction.of(numerator, denominator)` as an exact
    rational. `BigFraction` itself is not part of this model; only the value
    a fraction stands for, and its failure on a zero denominator, are. */
module BigFractions {
  import opened Common

  function FractionOf(numerator: int, denominator: int): (r: Result<real>)
    ensures r.Err? <==> denominator == 0
    ensures r.Err? ==> r.error == DivisionByZero
    ensures r.Ok? ==> r.value * denominator as real == numerator as real
  {
    if denominator == 0 then Err(DivisionByZero)
    else Ok(numerator as real / denominator as real)
  }

  /** A fraction with positive parts is positive and lies between the
      reciprocal of its denominator bound and its numerator bound. */
  lemma PositiveFractionBounds(n: int, d: int, bound: int)
    requires 1 <= n <= bound && 1 <= d <= bound
    ensures FractionOf(n, d).Ok?
    ensures 1.0 / bound as real <= FractionOf(n, d).value <= n as real
  {
    var f := FractionOf(n, d).value;
    var inv := 1.0 / bound as real;
    assert f == n as real / d as real;
    assert f > 0.0;
    assert f * d as real == n as real;
    assert f * 1.0 <= f * d as real;
    var slack := (bound - d) as real;
    assert f * slack >= 0.0;
    assert f * bound as real >= 1.0;
    assert inv * bound as real == 1.0;
    assert (f - inv) * bound as real >= 0.0;
  }
}
