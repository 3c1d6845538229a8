/** `suppliers.sequences.GeometricSequencesSupplier`: a geometric sequence
    with a fractional first term and a ratio `±1/d`, asked about either
    its sum or one of its terms. */
module GeometricSequences {
  import opened Common
  import opened NamedRanges
  import opened BigFractions

  const MIN_NTH_TERM: Int32 := 6
  const MAX_NTH_TERM: Int32 := 12

  /** `RangeStore.of(1, 10)`, whose sub-range is the whole range. */
  const S_NUM := RangeStore(1, 10, 1, 10)
  const S_DENOM := RangeStore(1, 10, 1, 10)
  const R_DENOM := RangeStore(2, 10, 2, 8)

  /** The two values `new GeometricSequence(first, ratio)` is built from;
      the sequence class itself is not part of this model. */
  datatype Sequence = Sequence(first: real, ratio: real)

  /** `sumProblem(seq)` or `termProblem(seq)` with the drawn index; the
      question text and the answer are not part of this model. */
  datatype GeometricProblem = SumProblem(sequence: Sequence) | TermProblem(sequence: Sequence, index: int)

  /** `1/d` for a denominator of at least 2 is positive and at most 1/2. */
  lemma {:induction false} ReciprocalBound(d: int)
    requires d >= 2
    ensures FractionOf(1, d).Ok?
    ensures 0.0 < FractionOf(1, d).value <= 0.5
  {
    var f := FractionOf(1, d).value;
    assert f * d as real == 1.0;
    assert f * (d - 2) as real >= 0.0;
    assert f * 2.0 <= 1.0;
  }

  class GeometricSequencesSupplier {
    const sNum: NamedIntRange
    const sDenom: NamedIntRange
    const rDenom: NamedIntRange

    /** The ranges keep their invariant, and their fixed bounds are those
        of the stores they were made from. */
    ghost predicate Valid()
      reads sNum.range, sDenom.range, rDenom.range
    {
      sNum.range.Valid() && sDenom.range.Valid() && rDenom.range.Valid()
      && sNum.Min() == S_NUM.min && sNum.Max() == S_NUM.max
      && sDenom.Min() == S_DENOM.min && sDenom.Max() == S_DENOM.max
      && rDenom.Min() == R_DENOM.min && rDenom.Max() == R_DENOM.max
    }

    /** The field initialisers: three named ranges with their default
        sub-ranges. */
    constructor ()
      ensures Valid()
      ensures sNum.Low() == S_NUM.low && sNum.High() == S_NUM.high && sNum.name == "Numerator of first term"
      ensures sDenom.Low() == S_DENOM.low && sDenom.High() == S_DENOM.high && sDenom.name == "Denominator of first term"
      ensures rDenom.Low() == R_DENOM.low && rDenom.High() == R_DENOM.high && rDenom.name == "Denominator of ratio"
    {
      var n := NamedIntRange.OfStore(S_NUM, "Numerator of first term");
      var m := NamedIntRange.OfStore(S_DENOM, "Denominator of first term");
      var d := NamedIntRange.OfStore(R_DENOM, "Denominator of ratio");
      sNum := n.value;
      sDenom := m.value;
      rDenom := d.value;
    }

    /** `get()`, given its draws in the order the Java code makes them: the
        ratio denominator `d`, the negation coin, the first term's numerator
        `n` and denominator `m`, the sum-or-term coin and the term index.
        Nothing fails: the ratio is `1/d`, negated exactly on the coin, and
        at most 1/2 in size; the first term is `n/m`; the second coin alone
        chooses a sum problem or a term problem, whose index is in [6, 12]. */
    function Get(d: int, negate: bool, n: int, m: int, sum: bool, termIndex: int): (r: Result<GeometricProblem>)
      reads sNum.range, sDenom.range, rDenom.range
      requires Valid()
      requires rDenom.Low() <= d <= rDenom.High()
      requires sNum.Low() <= n <= sNum.High() && sDenom.Low() <= m <= sDenom.High()
      requires MIN_NTH_TERM <= termIndex <= MAX_NTH_TERM
      ensures r.Ok?
      ensures var ratio := r.value.sequence.ratio;
        (ratio < 0.0 <==> negate) && (ratio == FractionOf(1, d).value || ratio == -FractionOf(1, d).value)
        && -0.5 <= ratio <= 0.5 && ratio != 0.0
      ensures r.value.sequence.first == FractionOf(n, m).value
      ensures r.value.SumProblem? <==> sum
      ensures r.value.TermProblem? ==> r.value.index == termIndex && MIN_NTH_TERM <= r.value.index <= MAX_NTH_TERM
    {
      assert d >= 2 && m >= 1;
      ReciprocalBound(d);
      match (FractionOf(1, d), FractionOf(n, m))
      case (Err(e), _) => Err(e)
      case (_, Err(e)) => Err(e)
      case (Ok(reciprocal), Ok(first)) =>
        var ratio := if negate then -reciprocal else reciprocal;
        var sequence := Sequence(first, ratio);
        if sum then Ok(SumProblem(sequence)) else Ok(TermProblem(sequence, termIndex))
    }
  }
}
