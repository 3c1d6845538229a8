/** `suppliers.bases.BaseAToPowerOfASupplier`: converting a number from
    base `a` to base `a^n`. */
module BaseAToPowerOfA {
  import opened Common
  import opened Strings
  import opened Refs
  import opened NamedRanges
  import opened Settings

  /** The decimal value: [1, 10000], by default [2, 200]. */
  const VALUE := RangeStore(1, 10000, 2, 200)

  /** The five pairs of bases `generateBases` chooses from, smaller first. */
  const PAIRS: set<(int, int)> := {(2, 4), (2, 8), (2, 16), (3, 9), (4, 16)}

  /** `(x, y)` is one of the pairs, in either order. */
  predicate IsAllowedPair(x: int, y: int)
  {
    (x, y) in PAIRS || (y, x) in PAIRS
  }

  /** `generateBases()`, given its draws: `ran` and `ran2` are the two
      `RAND.nextInt(3)` results (the second is drawn only when `ran` is 0)
      and `swapped` the order `Problem.shuffled` chooses. */
  function GenerateBases(ran: int, ran2: int, swapped: bool): (r: seq<int>)
    requires 0 <= ran < 3 && 0 <= ran2 < 3
    ensures |r| == 2 && IsAllowedPair(r[0], r[1])
  {
    if ran == 0 then
      if ran2 == 0 then Shuffled(2, 4, swapped)
      else if ran2 == 1 then Shuffled(2, 8, swapped)
      else Shuffled(2, 16, swapped)
    else if ran == 1 then Shuffled(3, 9, swapped)
    else Shuffled(4, 16, swapped)
  }

  /** Every allowed pair, in either order, is one that some draws produce. */
  lemma EveryPairGenerated(x: int, y: int)
    requires IsAllowedPair(x, y)
    ensures exists ran, ran2, swapped :: 0 <= ran < 3 && 0 <= ran2 < 3 && GenerateBases(ran, ran2, swapped) == [x, y]
  {
    var swapped := (x, y) !in PAIRS;
    var p := if swapped then (y, x) else (x, y);
    if p == (2, 4) {
      assert GenerateBases(0, 0, swapped) == [x, y];
    } else if p == (2, 8) {
      assert GenerateBases(0, 1, swapped) == [x, y];
    } else if p == (2, 16) {
      assert GenerateBases(0, 2, swapped) == [x, y];
    } else if p == (3, 9) {
      assert GenerateBases(1, 0, swapped) == [x, y];
    } else {
      assert GenerateBases(2, 0, swapped) == [x, y];
    }
  }

  function Pow(b: int, n: nat): int
  {
    if n == 0 then 1 else b * Pow(b, n - 1)
  }

  /** In every pair the larger base is a whole power, at least the square,
      of the smaller: base `a` and base `a^n`. */
  lemma LargerIsPowerOfSmaller(x: int, y: int)
    requires IsAllowedPair(x, y)
    ensures var a, b := if x <= y then x else y, if x <= y then y else x;
      exists n: nat :: n >= 2 && Pow(a, n) == b
  {
    var a, b := if x <= y then x else y, if x <= y then y else x;
    assert (a, b) in PAIRS;
    var n: nat := if (a, b) == (2, 8) then 3 else if (a, b) == (2, 16) then 4 else 2;
    assert Pow(a, 2) == a * a;
    assert Pow(a, 3) == a * a * a;
    assert Pow(a, 4) == a * a * a * a;
    assert Pow(a, n) == b;
  }

  /** What `get()` builds: the decimal value, the base the question shows it
      in and the base the answer is asked in. The conversions themselves
      (`Utils.convertBase`) are not part of this model. */
  datatype BaseProblem = BaseProblem(decimal: string, questionBase: int, answerBase: int)

  class BaseAToPowerOfASupplier {
    const registry: SettingsProblemSupplier
    const value: NamedIntRange

    /** The range keeps its invariant and has the store's fixed bounds. */
    ghost predicate Valid()
      reads value.range
    {
      value.range.Valid() && value.Min() == VALUE.min && value.Max() == VALUE.max
    }

    /** `addAllSettings(value)`, `value` being `of(VALUE, "Base 10 value of
        number")`: exactly one setting, carrying exactly one action. */
    constructor ()
      ensures Valid() && value.Low() == VALUE.low && value.High() == VALUE.high
      ensures value.name == "Base 10 value of number"
      ensures registry.Settings() == [RangeSetting(value)]
      ensures value.range.lowActions == [ChangeAction(registry, 0)]
    {
      var r := new SettingsProblemSupplier();
      var v := NamedIntRange.OfStore(VALUE, "Base 10 value of number");
      var action := AddFirstSetting(r, RangeSetting(v.value));
      registry := r;
      value := v.value;
    }

    /** `get()`, given the drawn value `v` and the draws of `generateBases`:
        both bases come from one allowed pair, the question is in the
        first and the answer in the second, and the decimal string reads
        back as `v`, which lies within the store's fixed bounds. */
    function Get(v: int, ran: int, ran2: int, swapped: bool): (r: BaseProblem)
      reads value.range
      requires Valid() && value.Low() <= v <= value.High()
      requires 0 <= ran < 3 && 0 <= ran2 < 3
      ensures IsAllowedPair(r.questionBase, r.answerBase)
      ensures [r.questionBase, r.answerBase] == GenerateBases(ran, ran2, swapped)
      ensures ParseInt(r.decimal) == Some(v) && VALUE.min <= v <= VALUE.max
    {
      var bases := GenerateBases(ran, ran2, swapped);
      IntRoundTrip(v);
      BaseProblem(IntToString(v), bases[0], bases[1])
    }

    function GetName(): string
    {
      "Base a to a^n"
    }
  }
}
