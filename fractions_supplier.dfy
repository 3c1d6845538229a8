/** `suppliers.fractions.MultiplyingOrDividingAnyFractionsSupplier`: the
    product or the quotient of two fractions built from four drawn
    integers. */
module FractionsSupplier {
  import opened Common
  import opened Refs
  import opened NamedRanges
  import opened Settings
  import opened BigFractions

  /** The four operand stores: all [1, 50], by default [1, 20]. */
  const NUM1 := RangeStore(1, 50, 1, 20)
  const NUM2 := RangeStore(1, 50, 1, 20)
  const DENOM1 := RangeStore(1, 50, 1, 20)
  const DENOM2 := RangeStore(1, 50, 1, 20)

  /** Which problem `get()` hands its two fractions to
      (`FracSupUtils.divideReformed` or `multiplyScrambled`, which are not
      part of this model). */
  datatype FractionProblem = Divide(f1: real, f2: real) | Multiply(f1: real, f2: real)

  /** A fraction of two operands drawn from [1, 50] exists and lies in
      [1/50, 50]. */
  lemma OperandFraction(n: int, d: int)
    requires 1 <= n <= 50 && 1 <= d <= 50
    ensures FractionOf(n, d).Ok?
    ensures FractionOf(n, d).value * d as real == n as real
    ensures 1.0 / 50.0 <= FractionOf(n, d).value <= 50.0
  {
    PositiveFractionBounds(n, d, 50);
  }

  class MultiplyingOrDividingAnyFractionsSupplier {
    const registry: SettingsProblemSupplier
    const num1: NamedIntRange
    const num2: NamedIntRange
    const denom1: NamedIntRange
    const denom2: NamedIntRange

    /** The ranges keep their invariant, and their fixed bounds are those
        of the stores they were made from. */
    ghost predicate Valid()
      reads num1.range, num2.range, denom1.range, denom2.range
    {
      num1.range.Valid() && num2.range.Valid() && denom1.range.Valid() && denom2.range.Valid()
      && num1.Min() == NUM1.min && num1.Max() == NUM1.max
      && num2.Min() == NUM2.min && num2.Max() == NUM2.max
      && denom1.Min() == DENOM1.min && denom1.Max() == DENOM1.max
      && denom2.Min() == DENOM2.min && denom2.Max() == DENOM2.max
    }

    /** Registers num1, denom1, num2 and denom2, in that order, with their
        default sub-ranges; both denominators are named "First
        denominator"; all four carry the one action the registry made. */
    constructor ()
      ensures Valid()
      ensures registry.Settings() ==
        [RangeSetting(num1), RangeSetting(denom1), RangeSetting(num2), RangeSetting(denom2)]
      ensures OnlyAction(registry.Settings(), ChangeAction(registry, 0))
      ensures num1.Low() == NUM1.low && num1.High() == NUM1.high && num1.name == "First numerator"
      ensures num2.Low() == NUM2.low && num2.High() == NUM2.high && num2.name == "Second numerator"
      ensures denom1.Low() == DENOM1.low && denom1.High() == DENOM1.high && denom1.name == "First denominator"
      ensures denom2.Low() == DENOM2.low && denom2.High() == DENOM2.high && denom2.name == "First denominator"
    {
      var r := new SettingsProblemSupplier();
      var n1, n2, d1, d2 := NewSettings();
      RegisterSettings(r, n1, d1, n2, d2);
      registry := r;
      num1 := n1;
      num2 := n2;
      denom1 := d1;
      denom2 := d2;
    }

    /** The four named ranges of the field initialisers. */
    static method NewSettings() returns (num1: NamedIntRange, num2: NamedIntRange, denom1: NamedIntRange, denom2: NamedIntRange)
      ensures fresh(num1.range) && fresh(num2.range) && fresh(denom1.range) && fresh(denom2.range)
      ensures num1.range != num2.range && num1.range != denom1.range && num1.range != denom2.range
      ensures num2.range != denom1.range && num2.range != denom2.range && denom1.range != denom2.range
      ensures num1.range.Valid() && num1.range.lowActions == [] && num1.name == "First numerator"
      ensures num1.range.min == NUM1.min && num1.range.max == NUM1.max
      ensures num1.range.low == NUM1.low && num1.range.high == NUM1.high
      ensures num2.range.Valid() && num2.range.lowActions == [] && num2.name == "Second numerator"
      ensures num2.range.min == NUM2.min && num2.range.max == NUM2.max
      ensures num2.range.low == NUM2.low && num2.range.high == NUM2.high
      ensures denom1.range.Valid() && denom1.range.lowActions == [] && denom1.name == "First denominator"
      ensures denom1.range.min == DENOM1.min && denom1.range.max == DENOM1.max
      ensures denom1.range.low == DENOM1.low && denom1.range.high == DENOM1.high
      ensures denom2.range.Valid() && denom2.range.lowActions == [] && denom2.name == "First denominator"
      ensures denom2.range.min == DENOM2.min && denom2.range.max == DENOM2.max
      ensures denom2.range.low == DENOM2.low && denom2.range.high == DENOM2.high
    {
      var n1 := NamedIntRange.OfStore(NUM1, "First numerator");
      var n2 := NamedIntRange.OfStore(NUM2, "Second numerator");
      var d1 := NamedIntRange.OfStore(DENOM1, "First denominator");
      var d2 := NamedIntRange.OfStore(DENOM2, "First denominator");
      num1 := n1.value;
      num2 := n2.value;
      denom1 := d1.value;
      denom2 := d2.value;
    }

    /** The constructor's `addAllSettings(num1, denom1, num2, denom2)` on a
        registry that has no settings yet. */
    static method RegisterSettings(registry: SettingsProblemSupplier,
                                   num1: NamedIntRange, denom1: NamedIntRange, num2: NamedIntRange, denom2: NamedIntRange)
      requires registry.list == None
      requires num1.range != num2.range && num1.range != denom1.range && num1.range != denom2.range
      requires num2.range != denom1.range && num2.range != denom2.range && denom1.range != denom2.range
      requires num1.range.Valid() && num1.range.lowActions == []
      requires denom1.range.Valid() && denom1.range.lowActions == []
      requires num2.range.Valid() && num2.range.lowActions == []
      requires denom2.range.Valid() && denom2.range.lowActions == []
      modifies registry, num1.range, denom1.range, num2.range, denom2.range
      ensures registry.Settings() ==
        [RangeSetting(num1), RangeSetting(denom1), RangeSetting(num2), RangeSetting(denom2)]
      ensures registry.made == old(registry.made) + 1
      ensures OnlyAction(registry.Settings(), ChangeAction(registry, old(registry.made)))
      ensures num1.range.Valid() && denom1.range.Valid() && num2.range.Valid() && denom2.range.Valid()
      ensures num1.range.low == old(num1.range.low) && num1.range.high == old(num1.range.high)
      ensures denom1.range.low == old(denom1.range.low) && denom1.range.high == old(denom1.range.high)
      ensures num2.range.low == old(num2.range.low) && num2.range.high == old(num2.range.high)
      ensures denom2.range.low == old(denom2.range.low) && denom2.range.high == old(denom2.range.high)
    {
      var settings := [RangeSetting(num1), RangeSetting(denom1), RangeSetting(num2), RangeSetting(denom2)];
      assert DistinctRefs(settings);
      assert NoActions(settings);
      ghost var before := ValuesOf(settings);
      assert before[0] == RangeValue(num1.range.low, num1.range.high);
      assert before[1] == RangeValue(denom1.range.low, denom1.range.high);
      assert before[2] == RangeValue(num2.range.low, num2.range.high);
      assert before[3] == RangeValue(denom2.range.low, denom2.range.high);
      var action := registry.AddAllSettings(settings);
      assert [] + settings == settings;
      assert AllValid(settings);
      assert ValuesOf(settings) == before;
      assert ValuesOf(settings)[0] == RangeValue(num1.range.low, num1.range.high);
      assert ValuesOf(settings)[1] == RangeValue(denom1.range.low, denom1.range.high);
      assert ValuesOf(settings)[2] == RangeValue(num2.range.low, num2.range.high);
      assert ValuesOf(settings)[3] == RangeValue(denom2.range.low, denom2.range.high);
    }

    /** `get()`, given its draws: `a` from num1, `b` from num2, `c` from
        denom1 and `d` from denom2, and the coin `divide`. The fractions
        are `a/b` and `c/d` exactly as the Java code wires them; neither
        denominator can be zero, both fractions lie in [1/50, 50], and
        the coin alone decides between division and multiplication. */
    function Get(a: int, b: int, c: int, d: int, divide: bool): (r: Result<FractionProblem>)
      reads num1.range, num2.range, denom1.range, denom2.range
      requires Valid()
      requires num1.Low() <= a <= num1.High() && num2.Low() <= b <= num2.High()
      requires denom1.Low() <= c <= denom1.High() && denom2.Low() <= d <= denom2.High()
      ensures r.Ok?
      ensures r.value.Divide? <==> divide
      ensures r.value.f1 == FractionOf(a, b).value && r.value.f2 == FractionOf(c, d).value
      ensures 1.0 / 50.0 <= r.value.f1 <= 50.0 && 1.0 / 50.0 <= r.value.f2 <= 50.0
    {
      assert 1 <= a <= 50 && 1 <= b <= 50 && 1 <= c <= 50 && 1 <= d <= 50;
      OperandFraction(a, b);
      OperandFraction(c, d);
      match (FractionOf(a, b), FractionOf(c, d))
      case (Err(e), _) => Err(e)
      case (_, Err(e)) => Err(e)
      case (Ok(f1), Ok(f2)) => if divide then Ok(Divide(f1, f2)) else Ok(Multiply(f1, f2))
    }
  }
}
