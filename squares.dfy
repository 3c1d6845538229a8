/** `suppliers.exponentiation.SquaresSupplier`: "n^2" for a base `n` drawn
    from one adjustable range named "Base". */
module Squares {
  import opened Common
  import opened Strings
  import opened Refs
  import opened Settings

  const MIN_BASE: Int32 := 0
  const MAX_BASE: Int32 := 200
  const DEFAULT_MIN_BASE: Int32 := 1
  const DEFAULT_MAX_BASE: Int32 := 30

  /** `String.format("%d^2", n)`. */
  function Square(n: int): (r: string)
    ensures ParseSquare(r) == Some(n)
  {
    var s := IntToString(n) + "^2";
    assert s[..|s| - 2] == IntToString(n);
    IntRoundTrip(n);
    s
  }

  /** Reads back a square: a decimal integer followed by "^2". */
  function ParseSquare(s: string): Option<int>
  {
    if |s| >= 2 && s[|s| - 2..] == "^2" then ParseInt(s[..|s| - 2]) else None
  }

  /** Different bases give different expressions. */
  lemma SquareInjective(m: int, n: int)
    requires Square(m) == Square(n)
    ensures m == n
  {
    assert ParseSquare(Square(m)) == Some(m);
  }

  class SquaresSupplier {
    const registry: SettingsProblemSupplier
    const baseRange: IntRange

    /** The range keeps its invariant and has the fixed bounds 0 and 200. */
    ghost predicate Valid()
      reads baseRange
    {
      baseRange.Valid() && baseRange.min == MIN_BASE && baseRange.max == MAX_BASE
    }

    /** `SquaresSupplier(minBase, maxBase)` once `IntRange` verification
        passed: the one setting "Base" is registered with one action. */
    constructor (minBase: Int32, maxBase: Int32)
      requires Verify(MIN_BASE, MAX_BASE, minBase, maxBase).Pass?
      ensures Valid() && MinBase() == minBase && MaxBase() == maxBase
      ensures registry.Settings() == [NamedRange("Base", baseRange)]
      ensures baseRange.lowActions == [ChangeAction(registry, 0)]
    {
      var r := new SettingsProblemSupplier();
      var range := new IntRange(MIN_BASE, MAX_BASE, minBase, maxBase);
      var action := AddFirstSetting(r, NamedRange("Base", range));
      registry := r;
      baseRange := range;
    }

    /** `new SquaresSupplier(minBase, maxBase)`: throws exactly when the
        `IntRange` constructor does, with its message. */
    static method Create(minBase: Int32, maxBase: Int32) returns (r: Result<SquaresSupplier>)
      ensures r.Ok? <==> MIN_BASE <= minBase && maxBase <= MAX_BASE
      ensures r.Err? ==> Verify(MIN_BASE, MAX_BASE, minBase, maxBase) == Fail(r.error)
      ensures r.Ok? ==> fresh(r.value) && r.value.Valid()
      ensures r.Ok? ==> r.value.MinBase() == minBase && r.value.MaxBase() == maxBase
    {
      var check := Verify(MIN_BASE, MAX_BASE, minBase, maxBase);
      if check.Fail? {
        return Err(check.error);
      }
      var s := new SquaresSupplier(minBase, maxBase);
      r := Ok(s);
    }

    /** `new SquaresSupplier()`: the default sub-range [1, 30]. */
    static method Default() returns (s: SquaresSupplier)
      ensures fresh(s) && s.Valid()
      ensures s.MinBase() == DEFAULT_MIN_BASE && s.MaxBase() == DEFAULT_MAX_BASE
    {
      s := new SquaresSupplier(DEFAULT_MIN_BASE, DEFAULT_MAX_BASE);
    }

    /** `minBase()`: the range's current low value. */
    function MinBase(): (r: Int32)
      reads baseRange
      ensures r == baseRange.GetLow()
      ensures Valid() ==> r >= MIN_BASE
    {
      baseRange.GetLow()
    }

    /** `maxBase()`: the range's current high value. */
    function MaxBase(): (r: Int32)
      reads baseRange
      ensures r == baseRange.GetHigh()
      ensures Valid() ==> r <= MAX_BASE
    {
      baseRange.GetHigh()
    }

    /** `get()`, with `n` the drawn base: the expression reads back as `n`,
        which lies within the fixed bounds. */
    function Get(n: int): (r: string)
      reads baseRange
      requires Valid() && MinBase() <= n <= MaxBase()
      ensures ParseSquare(r) == Some(n)
      ensures MIN_BASE <= ParseSquare(r).value <= MAX_BASE
    {
      Square(n)
    }
  }
}
