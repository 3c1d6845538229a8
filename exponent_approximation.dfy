/** `suppliers.exponentiation.ExponentApproximationSupplier`: a chain of
    powers `b^e` joined by `*` or `/`, to be approximated. */
module ExponentApproximation {
  import opened Common
  import opened Strings
  import opened Refs
  import opened NamedRanges
  import opened Settings

  const TERMS := RangeStore(1, 4, 1, 3)
  const BASE := RangeStore(1, 100, 1, 20)
  const EXPONENT := RangeStore(1, 6, 1, 4)

  /** `getTerm()`, given the base and exponent it draws. */
  function Term(base: int, exponent: int): string
  {
    IntToString(base) + "^" + IntToString(exponent)
  }

  /** One `^` and no operator: what makes a piece a term. */
  predicate IsTerm(t: string)
  {
    Count(t, '^') == 1 && Count(t, '*') == 0 && Count(t, '/') == 0
  }

  lemma TermCounts(base: int, exponent: int)
    ensures IsTerm(IntToString(base) + "^" + IntToString(exponent))
  {
    var b := IntToString(base);
    var e := IntToString(exponent);
    NotInIntToString(base, '^');
    NotInIntToString(exponent, '^');
    NotInIntToString(base, '*');
    NotInIntToString(exponent, '*');
    NotInIntToString(base, '/');
    NotInIntToString(exponent, '/');
    CountsAppend(b, "^");
    CountsAppend(b + "^", e);
  }

  /** Splitting a term at its `^` gives back the base and the exponent. */
  lemma TermRoundTrip(base: int, exponent: int)
    ensures var t := Term(base, exponent);
      var p := IndexOf(t, '^');
      0 <= p && ParseInt(t[..p]) == Some(base) && ParseInt(t[p + 1..]) == Some(exponent)
  {
    NotInIntToString(base, '^');
    SplitAtFirst(IntToString(base), IntToString(exponent), '^');
    IntRoundTrip(base);
    IntRoundTrip(exponent);
  }

  /** `getOp()`, given the division flag and the coin it flips: `/` only when
      division is on and the coin says so. */
  function Op(division: bool, coin: bool): (r: string)
    ensures r == "/" || r == "*"
    ensures r == "/" <==> division && coin
  {
    if division && coin then "/" else "*"
  }

  /** The first `i` term-operator pairs `get()` appends, the `j`-th made of
      the `j`-th base, exponent and coin. */
  function Chain(bases: seq<int>, exponents: seq<int>, division: bool, coins: seq<bool>, i: nat): string
    requires i <= |bases| && i <= |exponents| && i <= |coins|
  {
    if i == 0 then ""
    else Chain(bases, exponents, division, coins, i - 1) + (Term(bases[i - 1], exponents[i - 1]) + Op(division, coins[i - 1]))
  }

  /** The string `get()` builds: `n` term-operator pairs, then a last term. */
  function Expression(bases: seq<int>, exponents: seq<int>, division: bool, coins: seq<bool>): string
    requires |bases| == |exponents| == |coins| + 1
  {
    Chain(bases, exponents, division, coins, |coins|) + Term(bases[|coins|], exponents[|coins|])
  }

  lemma {:induction false} ChainCounts(bases: seq<int>, exponents: seq<int>, division: bool, coins: seq<bool>, i: nat)
    requires i <= |bases| && i <= |exponents| && i <= |coins|
    ensures Count(Chain(bases, exponents, division, coins, i), '^') == i
    ensures Count(Chain(bases, exponents, division, coins, i), '*') + Count(Chain(bases, exponents, division, coins, i), '/') == i
    ensures !division ==> Count(Chain(bases, exponents, division, coins, i), '/') == 0
  {
    if i > 0 {
      ChainCounts(bases, exponents, division, coins, i - 1);
      var pair := Term(bases[i - 1], exponents[i - 1]) + Op(division, coins[i - 1]);
      PairCounts(bases[i - 1], exponents[i - 1], division, coins[i - 1]);
      ChainStepCounts(Chain(bases, exponents, division, coins, i - 1), pair, division, i - 1);
    }
  }

  /** Appending a pair to `n` pairs gives `n + 1` of them. */
  lemma ChainStepCounts(prefix: string, pair: string, division: bool, n: nat)
    requires Count(prefix, '^') == n && Count(prefix, '*') + Count(prefix, '/') == n
    requires !division ==> Count(prefix, '/') == 0
    requires Count(pair, '^') == 1 && Count(pair, '*') + Count(pair, '/') == 1
    requires !division ==> Count(pair, '/') == 0
    ensures Count(prefix + pair, '^') == n + 1 && Count(prefix + pair, '*') + Count(prefix + pair, '/') == n + 1
    ensures !division ==> Count(prefix + pair, '/') == 0
  {
    CountsAppend(prefix, pair);
  }

  /** A term followed by an operator: one caret and one operator character. */
  lemma PairCounts(base: int, exponent: int, division: bool, coin: bool)
    ensures var pair := Term(base, exponent) + Op(division, coin);
      Count(pair, '^') == 1 && Count(pair, '*') + Count(pair, '/') == 1 && (!division ==> Count(pair, '/') == 0)
  {
    TermCounts(base, exponent);
    OpCounts(division, coin);
    CountsAppend(Term(base, exponent), Op(division, coin));
  }

  /** An operator is one `*` or `/` and no caret; without division, `*`. */
  lemma OpCounts(division: bool, coin: bool)
    ensures var op := Op(division, coin);
      Count(op, '^') == 0 && Count(op, '*') + Count(op, '/') == 1 && (!division ==> Count(op, '/') == 0)
  {
    var op := Op(division, coin);
    assert op[1..] == "";
  }

  /** `CountAppend` for the three characters the expression is counted by. */
  lemma CountsAppend(a: string, b: string)
    ensures Count(a + b, '^') == Count(a, '^') + Count(b, '^')
    ensures Count(a + b, '*') == Count(a, '*') + Count(b, '*')
    ensures Count(a + b, '/') == Count(a, '/') + Count(b, '/')
  {
    CountAppend(a, b, '^');
    CountAppend(a, b, '*');
    CountAppend(a, b, '/');
  }

  /** `n` operators give `n + 1` terms; every operator is `*` or `/`, and
      without division every one is `*`. */
  lemma ExpressionCounts(bases: seq<int>, exponents: seq<int>, division: bool, coins: seq<bool>)
    requires |bases| == |exponents| == |coins| + 1
    ensures var s := Expression(bases, exponents, division, coins);
      Count(s, '^') == |coins| + 1 && Count(s, '*') + Count(s, '/') == |coins|
      && (!division ==> Count(s, '/') == 0 && Count(s, '*') == |coins|)
  {
    ChainCounts(bases, exponents, division, coins, |coins|);
    TermCounts(bases[|coins|], exponents[|coins|]);
    CountsAppend(Chain(bases, exponents, division, coins, |coins|), Term(bases[|coins|], exponents[|coins|]));
  }

  class ExponentApproximationSupplier {
    const registry: SettingsProblemSupplier
    const division: BoolRef
    const terms: NamedIntRange
    const exponent: NamedIntRange
    const base: NamedIntRange

    /** The ranges keep their invariant, and their fixed bounds are those
        of the stores they were made from. */
    ghost predicate Valid()
      reads terms.range, exponent.range, base.range
    {
      terms.range.Valid() && exponent.range.Valid() && base.range.Valid()
      && terms.Min() == TERMS.min && terms.Max() == TERMS.max
      && exponent.Min() == EXPONENT.min && exponent.Max() == EXPONENT.max
      && base.Min() == BASE.min && base.Max() == BASE.max
    }

    /** Registers the division flag (on, named "Divison"), then the terms,
        exponent and base ranges, with their default sub-ranges; all four
        carry the one action the registry made. */
    constructor ()
      ensures Valid()
      ensures registry.Settings() ==
        [NamedFlag("Divison", division), RangeSetting(terms), RangeSetting(exponent), RangeSetting(base)]
      ensures OnlyAction(registry.Settings(), ChangeAction(registry, 0))
      ensures division.value
      ensures terms.Low() == TERMS.low && terms.High() == TERMS.high && terms.name == "Terms"
      ensures exponent.Low() == EXPONENT.low && exponent.High() == EXPONENT.high && exponent.name == "Exponents"
      ensures base.Low() == BASE.low && base.High() == BASE.high && base.name == "Bases"
    {
      var r := new SettingsProblemSupplier();
      var d, t, e, b := NewSettings();
      RegisterSettings(r, d, t, e, b);
      registry := r;
      division := d;
      terms := t;
      exponent := e;
      base := b;
    }

    /** The four settings the constructor's `addAllSettings` call creates. */
    static method NewSettings() returns (division: BoolRef, terms: NamedIntRange, exponent: NamedIntRange, base: NamedIntRange)
      ensures fresh(division) && fresh(terms.range) && fresh(exponent.range) && fresh(base.range)
      ensures terms.range != exponent.range && terms.range != base.range && exponent.range != base.range
      ensures division.value && division.actions == []
      ensures terms.range.Valid() && terms.range.lowActions == [] && terms.name == "Terms"
      ensures terms.range.min == TERMS.min && terms.range.max == TERMS.max
      ensures terms.range.low == TERMS.low && terms.range.high == TERMS.high
      ensures exponent.range.Valid() && exponent.range.lowActions == [] && exponent.name == "Exponents"
      ensures exponent.range.min == EXPONENT.min && exponent.range.max == EXPONENT.max
      ensures exponent.range.low == EXPONENT.low && exponent.range.high == EXPONENT.high
      ensures base.range.Valid() && base.range.lowActions == [] && base.name == "Bases"
      ensures base.range.min == BASE.min && base.range.max == BASE.max
      ensures base.range.low == BASE.low && base.range.high == BASE.high
    {
      division := new BoolRef(true);
      var t := NamedIntRange.OfStore(TERMS, "Terms");
      var e := NamedIntRange.OfStore(EXPONENT, "Exponents");
      var b := NamedIntRange.OfStore(BASE, "Bases");
      terms := t.value;
      exponent := e.value;
      base := b.value;
    }

    /** The constructor's `addAllSettings(division, terms, exponent, base)`
        on a registry that has no settings yet. */
    static method RegisterSettings(registry: SettingsProblemSupplier, division: BoolRef,
                                   terms: NamedIntRange, exponent: NamedIntRange, base: NamedIntRange)
      requires registry.list == None
      requires terms.range != exponent.range && terms.range != base.range && exponent.range != base.range
      requires division.actions == []
      requires terms.range.Valid() && terms.range.lowActions == []
      requires exponent.range.Valid() && exponent.range.lowActions == []
      requires base.range.Valid() && base.range.lowActions == []
      modifies registry, division, terms.range, exponent.range, base.range
      ensures registry.Settings() ==
        [NamedFlag("Divison", division), RangeSetting(terms), RangeSetting(exponent), RangeSetting(base)]
      ensures registry.made == old(registry.made) + 1
      ensures OnlyAction(registry.Settings(), ChangeAction(registry, old(registry.made)))
      ensures division.value == old(division.value)
      ensures terms.range.Valid() && exponent.range.Valid() && base.range.Valid()
      ensures terms.range.low == old(terms.range.low) && terms.range.high == old(terms.range.high)
      ensures exponent.range.low == old(exponent.range.low) && exponent.range.high == old(exponent.range.high)
      ensures base.range.low == old(base.range.low) && base.range.high == old(base.range.high)
    {
      var settings := [NamedFlag("Divison", division), RangeSetting(terms), RangeSetting(exponent), RangeSetting(base)];
      assert DistinctRefs(settings);
      assert NoActions(settings);
      assert settings[0].Ref() == FlagRef(division);
      ghost var before := ValuesOf(settings);
      assert before[0] == FlagValue(division.value);
      assert before[1] == RangeValue(terms.range.low, terms.range.high);
      assert before[2] == RangeValue(exponent.range.low, exponent.range.high);
      assert before[3] == RangeValue(base.range.low, base.range.high);
      var action := registry.AddAllSettings(settings);
      assert [] + settings == settings;
      assert AllValid(settings);
      assert ValuesOf(settings) == before;
      assert ValuesOf(settings)[0] == FlagValue(division.value);
      assert ValuesOf(settings)[1] == RangeValue(terms.range.low, terms.range.high);
      assert ValuesOf(settings)[2] == RangeValue(exponent.range.low, exponent.range.high);
      assert ValuesOf(settings)[3] == RangeValue(base.range.low, base.range.high);
    }

    /** `get()`: the term count, every base, exponent and coin are the draws,
        each within its setting's current sub-range. */
    method Get(termCount: int, bases: seq<int>, exponents: seq<int>, coins: seq<bool>) returns (expr: string)
      requires Valid()
      requires terms.Low() <= termCount <= terms.High()
      requires |bases| == |exponents| == termCount + 1 && |coins| == termCount
      requires forall j :: 0 <= j < |bases| ==> base.Low() <= bases[j] <= base.High()
      requires forall j :: 0 <= j < |exponents| ==> exponent.Low() <= exponents[j] <= exponent.High()
      ensures expr == Expression(bases, exponents, division.value, coins)
    {
      expr := BuildExpression(bases, exponents, division.value, coins);
    }

    /** The `StringBuilder` loop of `get()`, given the draws: one term-operator
        pair per coin, then the last term. */
    static method BuildExpression(bases: seq<int>, exponents: seq<int>, division: bool, coins: seq<bool>)
      returns (expr: string)
      requires |bases| == |exponents| == |coins| + 1
      ensures expr == Expression(bases, exponents, division, coins)
    {
      var sb := "";
      var i := 0;
      while i < |coins|
        invariant 0 <= i <= |coins|
        invariant sb == Chain(bases, exponents, division, coins, i)
      {
        var term := Term(bases[i], exponents[i]);
        var op := Op(division, coins[i]);
        sb := sb + (term + op);
        i := i + 1;
      }
      expr := sb + Term(bases[|coins|], exponents[|coins|]);
    }

    /** Every base and exponent a valid supplier can draw is at least 1. */
    lemma DrawsArePositive(b: int, e: int)
      requires Valid()
      requires base.Low() <= b <= base.High() && exponent.Low() <= e <= exponent.High()
      ensures b >= 1 && e >= 1
    {
    }
  }
}
