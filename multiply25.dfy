/** `suppliers.pemdas.Multiply25Supplier`: a product of 25 and a term whose
    digit count is drawn from one adjustable range. */
module Multiply25 {
  import opened Common
  import opened Strings
  import opened Refs
  import opened Settings

  const MIN_DIGITS: Int32 := 1
  const MAX_DIGITS: Int32 := 4
  const LOW_DIGITS: Int32 := 1
  const HIGH_DIGITS: Int32 := 3

  class Multiply25Supplier {
    const registry: SettingsProblemSupplier
    const digits: IntRange

    /** The digit range keeps its invariant and has the fixed bounds 1 and 4. */
    ghost predicate Valid()
      reads digits
    {
      digits.Valid() && digits.min == MIN_DIGITS && digits.max == MAX_DIGITS
    }

    /** `Multiply25Supplier(lowDigits, highDigits)` once `IntRange`
        verification passed: the one setting "Digits in non-25 term" is
        registered with one action. */
    constructor (lowDigits: Int32, highDigits: Int32)
      requires Verify(MIN_DIGITS, MAX_DIGITS, lowDigits, highDigits).Pass?
      ensures Valid() && LowDigits() == lowDigits && HighDigits() == highDigits
      ensures registry.Settings() == [NamedRange("Digits in non-25 term", digits)]
      ensures digits.lowActions == [ChangeAction(registry, 0)]
    {
      var r := new SettingsProblemSupplier();
      var range := new IntRange(MIN_DIGITS, MAX_DIGITS, lowDigits, highDigits);
      var action := AddFirstSetting(r, NamedRange("Digits in non-25 term", range));
      registry := r;
      digits := range;
    }

    /** `new Multiply25Supplier(lowDigits, highDigits)`: throws exactly when
        `lowDigits < 1` or `highDigits > 4`, with the `IntRange` message. */
    static method Create(lowDigits: Int32, highDigits: Int32) returns (r: Result<Multiply25Supplier>)
      ensures r.Ok? <==> MIN_DIGITS <= lowDigits && highDigits <= MAX_DIGITS
      ensures r.Err? ==> Verify(MIN_DIGITS, MAX_DIGITS, lowDigits, highDigits) == Fail(r.error)
      ensures r.Ok? ==> fresh(r.value) && r.value.Valid()
      ensures r.Ok? ==> r.value.LowDigits() == lowDigits && r.value.HighDigits() == highDigits
    {
      var check := Verify(MIN_DIGITS, MAX_DIGITS, lowDigits, highDigits);
      if check.Fail? {
        return Err(check.error);
      }
      var s := new Multiply25Supplier(lowDigits, highDigits);
      r := Ok(s);
    }

    /** `new Multiply25Supplier()`: the default sub-range [1, 3]. */
    static method Default() returns (s: Multiply25Supplier)
      ensures fresh(s) && s.Valid()
      ensures s.LowDigits() == LOW_DIGITS && s.HighDigits() == HIGH_DIGITS
    {
      s := new Multiply25Supplier(LOW_DIGITS, HIGH_DIGITS);
    }

    /** `lowDigits()`: the digit range's current low value. */
    function LowDigits(): (r: Int32)
      reads digits
      ensures r == digits.GetLow()
      ensures Valid() ==> r >= MIN_DIGITS
    {
      digits.GetLow()
    }

    /** `highDigits()`: the digit range's current high value. */
    function HighDigits(): (r: Int32)
      reads digits
      ensures r == digits.GetHigh()
      ensures Valid() ==> r <= MAX_DIGITS
    {
      digits.GetHigh()
    }

    /** `get()`: the factors of the product, given the drawn `term` (a
        number written with between `lowDigits()` and `highDigits()` digits)
        and the order `Problem.shuffled` draws. The factors are `term` and
        25, and each is below `10^4`. */
    function Get(term: nat, swapped: bool): (r: seq<int>)
      reads digits
      requires Valid() && LowDigits() <= |IntToString(term)| <= HighDigits()
      ensures |r| == 2 && multiset(r) == multiset{term, 25}
      ensures forall i :: 0 <= i < |r| ==> 0 <= r[i] < Pow10(MAX_DIGITS)
    {
      DigitsBound(term, MAX_DIGITS);
      Shuffled(term, 25, swapped)
    }

    function GetName(): string
    {
      "Multiply by 25"
    }
  }
}
