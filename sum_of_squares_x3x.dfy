/** `suppliers.exponentiation.SumOfSquaresX3XSupplier`: "a^2+b^2" where the
    second base is three times the first. */
module SumOfSquaresX3X {
  import opened Common
  import opened Strings
  import opened Refs
  import opened NamedRanges
  import opened Settings
  import opened Squares

  /** The base of the smaller term: [1, 30], by default [3, 25]. */
  const BASE := RangeStore(1, 30, 3, 25)

  /** `String.format("%d^2+%d^2", base1, base2)`. */
  function SumOfSquares(base1: int, base2: int): (r: string)
  {
    Square(base1) + "+" + Square(base2)
  }

  /** Reads back a sum of squares: split at the first `+`, then read each
      side as a square. */
  function ParseSumOfSquares(s: string): Option<(int, int)>
  {
    var p := IndexOf(s, '+');
    if p < 0 then None
    else
      match (ParseSquare(s[..p]), ParseSquare(s[p + 1..]))
      case (Some(x), Some(y)) => Some((x, y))
      case _ => None
  }

  /** What `SumOfSquares` writes, `ParseSumOfSquares` reads back. */
  lemma SumOfSquaresRoundTrip(base1: int, base2: int)
    ensures ParseSumOfSquares(SumOfSquares(base1, base2)) == Some((base1, base2))
  {
    var x := Square(base1);
    NotInIntToString(base1, '+');
    assert x == IntToString(base1) + "^2";
    assert '+' !in x;
    SplitAtFirst(x, Square(base2), '+');
  }

  class SumOfSquaresX3XSupplier {
    const registry: SettingsProblemSupplier
    const base: NamedIntRange

    /** The range keeps its invariant and has the store's fixed bounds. */
    ghost predicate Valid()
      reads base.range
    {
      base.range.Valid() && base.Min() == BASE.min && base.Max() == BASE.max
    }

    /** `addAllSettings(base = of(BASE, "Base of smaller term"))`: exactly
        one setting, carrying exactly one action. */
    constructor ()
      ensures Valid() && base.Low() == BASE.low && base.High() == BASE.high
      ensures base.name == "Base of smaller term"
      ensures registry.Settings() == [RangeSetting(base)]
      ensures base.range.lowActions == [ChangeAction(registry, 0)]
    {
      var r := new SettingsProblemSupplier();
      var b := NamedIntRange.OfStore(BASE, "Base of smaller term");
      var action := AddFirstSetting(r, RangeSetting(b.value));
      registry := r;
      base := b.value;
    }

    /** `get()`, with `base1` the drawn base: `3 * base1` is Java `int`
        arithmetic, which cannot overflow within the store's bounds, so the
        expression reads back as `base1` and exactly three times `base1`. */
    function Get(base1: int): (r: string)
      reads base.range
      requires Valid() && base.Low() <= base1 <= base.High()
      ensures var p := ParseSumOfSquares(r);
        p.Some? && p.value.0 == base1 && p.value.1 == 3 * p.value.0
        && BASE.min <= p.value.0 <= BASE.max
    {
      var base2 := Wrap32(3 * base1);
      SumOfSquaresRoundTrip(base1, base2);
      SumOfSquares(base1, base2)
    }

    function GetName(): string
    {
      "Sum of squares with bases x and 3x"
    }
  }
}
