# MathUIL core, modelled in Dafny

MathUIL is a JavaFX drill program for UIL high-school mathematics. Problem
suppliers generate problems from random draws; each supplier exposes its
settings (adjustable integer ranges and flags) through a shared registry.
This project models three parts of it:

- **The settings layer.** `IntRange` (`module Refs`) is a mutable range.
  Its `min` and `max` are fixed. Its `low` and `high` are adjustable, and
  each has a guarded setter. Change actions are registered on both of its
  refs. `NamedIntRange` (`module NamedRanges`) gives a range a fixed name.
  `SettingsProblemSupplier` (`module Settings`) keeps the lazily created,
  ordered list of settings and hooks one change action onto every setting
  added.
- **`Complex`** (`module MathComplex`). An immutable complex number with
  exact decimal parts, modelled as `real`. It covers the constructors, value
  equality, `sum`, `multiply`, the `"a+bi"` string split, `remainder` and
  `longValueExact`.
- **The problem suppliers.** One module each for the exponent
  approximation, geometric sequence, base conversion, fraction, multiply-by-25,
  squares and sum-of-squares suppliers. Each `get()` is a deterministic
  function of its random draws. The draws are parameters, and each must lie
  in its setting's current `[low, high]`. Each constructor is a Dafny
  constructor that builds the supplier's settings and registers them.

The guards of `IntRange` enforce only `min <= max`, `low >= min` and
`high <= max`. Nothing keeps `low <= high`, and the model does not add
that. `RangeScenarios.LowMayPassHigh` shows a low value above the high
value being accepted.

How the Java constructs are represented:

- `int` and `long` are the subset types `Int32` and `Long`. Java `int`
  arithmetic is written out with `Wrap32` where it matters.
- Exceptions are the `Err` and `Fail` cases of `Result` and `Outcome`, and
  they carry MathUIL's messages.
- A Java change action (`Runnable`) is compared by identity. It is
  modelled as the value `ChangeAction(owner, serial)`. The owner is the
  supplier whose `settingsChanged` it runs. The serial number is the count
  of actions that supplier has made before, so two evaluations of
  `this::settingsChanged` give different actions.
- A supplier's inherited registry state is a `SettingsProblemSupplier`
  object held in its field `registry`. Java's `extends` is replaced by
  composition.

## Model

| member | source | states |
|---|---|---|
| `Refs.Verify` | MathUIL/src/utils/refs/IntRange.java:81-88 | passes exactly when `min <= max`, `low >= min` and `high <= max`; otherwise fails with the message of the first check violated, in the order the Java code checks them |
| `Refs.IntRange.constructor` | MathUIL/src/utils/refs/IntRange.java:72-79 | once verification passed, the four values are stored as given, no actions are registered, and the invariant holds |
| `Refs.IntRange.Create` | MathUIL/src/utils/refs/IntRange.java:72-74 | `new IntRange` succeeds exactly when `verify` passes, and then yields a fresh valid range with the given values; otherwise it throws `verify`'s exception and builds nothing |
| `Refs.IntRange.GetMin` | MathUIL/src/utils/refs/IntRange.java:90-92 | under the invariant, `min` is at most `max` and at most `low` |
| `Refs.IntRange.GetMax` | MathUIL/src/utils/refs/IntRange.java:94-96 | under the invariant, `max` is at least `min` and at least `high` |
| `Refs.IntRange.GetLow` | MathUIL/src/utils/refs/IntRange.java:118-120 | under the invariant, the low value is at least `min` |
| `Refs.IntRange.GetHigh` | MathUIL/src/utils/refs/IntRange.java:114-116 | under the invariant, the high value is at most `max` |
| `Refs.IntRange.SetLow` | MathUIL/src/utils/refs/IntRange.java:38-42 | `setLow(v)` through the low ref's guard: fails with "Low value cannot be lower than min value." exactly when `v < min`, and then nothing changes; otherwise only `low` changes, to `v`; the invariant is kept |
| `Refs.IntRange.SetHigh` | MathUIL/src/utils/refs/IntRange.java:58-62 | `setHigh(v)` through the high ref's guard: fails with "High value cannot be greater than max value." exactly when `v > max`, and then nothing changes; otherwise only `high` changes, to `v`; the invariant is kept |
| `Refs.IntRange.ValueRange` | MathUIL/src/utils/refs/IntRange.java:122-126 | `high - low + 1` in `int` arithmetic; when nothing overflows, the number of integers from `low` to `high` provided `low <= high + 1`, and a negative number once `low > high + 1` |
| `Refs.IntRange.MaxValueRange` | MathUIL/src/utils/refs/IntRange.java:128-133 | `max - min + 1` in `int` arithmetic; for a valid range without overflow, the number of integers from `min` to `max` |
| `Refs.IntRange.AddChangeAction` | MathUIL/src/utils/refs/IntRange.java:140-144 | the action is appended to the low ref's list and to the high ref's list; the invariant, which keeps the two lists equal, is preserved |
| `Refs.IntRange.RemoveChangeAction` | MathUIL/src/utils/refs/IntRange.java:146-152 | the first occurrence is removed from both lists; the result is true exactly when the action was registered; the two refs' answers agree, as the Java code asserts |
| `Refs.RemoveFirst` | MathUIL/src/utils/refs/IntRange.java:148-149 | what each ref's `removeChangeAction` is taken to do: a list without `x` is unchanged; otherwise one element shorter, holding one `x` fewer |
| `Refs.IntRange.GetChangeActionsUnmodifiable` | MathUIL/src/utils/refs/IntRange.java:154-157 | the low ref's list, which under the invariant is also the high ref's |
| `RangeScenarios.LowMayPassHigh` | MathUIL/src/utils/refs/IntRange.java:38-42 | setting `low` above `high` is accepted and leaves a valid range with `low = 9 > high = 7`, whose `valueRange()` is -1 although it holds no integer |
| `RangeScenarios.WidestRangeWraps` | MathUIL/src/utils/refs/IntRange.java:131-133 | `new IntRange(MIN_INT, MAX_INT, 0, 0)` is valid and its `maxValueRange()` wraps 2^32 around to 0 |
| `NamedRanges.NamedIntRange.constructor` | MathUIL/src/suppliers/NamedIntRange.java:37-40 | stores the range and the name it is given |
| `NamedRanges.NamedIntRange.New` | MathUIL/src/suppliers/NamedIntRange.java:37-40 | fails, as `Objects.requireNonNull` does, exactly when the range or the name is null; otherwise a fresh object holding both |
| `NamedRanges.NamedIntRange.Of` | MathUIL/src/suppliers/NamedIntRange.java:16-18 | the same outcomes as the constructor |
| `NamedRanges.NamedIntRange.OfBounds` | MathUIL/src/suppliers/NamedIntRange.java:23-25 | fails exactly when the `IntRange` constructor does, with its exception; otherwise a fresh, valid, action-free range with the four values and the name |
| `NamedRanges.NamedIntRange.OfStore` | MathUIL/src/suppliers/NamedIntRange.java:30-32 | the same as `OfBounds` on the store's min, max, low and high, in that order |
| `NamedRanges.NamedIntRange.GetName` | MathUIL/src/suppliers/NamedIntRange.java:42-45 | the name given at construction |
| `NamedRanges.NamedIntRange.Ref` | MathUIL/src/suppliers/NamedIntRange.java:47-50 | the very range object given at construction |
| `NamedRanges.NamedIntRange.Low` | MathUIL/src/suppliers/NamedIntRange.java:52-54 | always the range's current `getLow()`, at least `min()` for a valid range |
| `NamedRanges.NamedIntRange.High` | MathUIL/src/suppliers/NamedIntRange.java:56-58 | always the range's current `getHigh()`, at most `max()` for a valid range |
| `NamedRanges.NamedIntRange.Min` | MathUIL/src/suppliers/NamedIntRange.java:60-62 | always the range's `getMin()` |
| `NamedRanges.NamedIntRange.Max` | MathUIL/src/suppliers/NamedIntRange.java:64-66 | always the range's `getMax()`, at least `min()` for a valid range |
| `Settings.Register` | MathUIL/src/suppliers/SettingsProblemSupplier.java:32 | `setting.addChangeAction(action)` on a range or a flag: the action is appended to that ref's actions, its values are unchanged and its invariant kept |
| `Settings.RegisterNext` | MathUIL/src/suppliers/SettingsProblemSupplier.java:30-33 | one loop step: after it, every setting's ref carries its original actions plus one copy of the action per occurrence of that ref among the settings handled so far |
| `Settings.RegisterAll` | MathUIL/src/suppliers/SettingsProblemSupplier.java:30-33 | the whole loop: the same property for all the settings passed (the loop invariant) |
| `Settings.AllRegistered` | MathUIL/src/suppliers/SettingsProblemSupplier.java:30-33 | after the loop, every ref keeps its values and invariant and has gained one copy of the action for each time it occurs among the settings |
| `Settings.DistinctRefsOccurOnce` | MathUIL/src/suppliers/SettingsProblemSupplier.java:29-33 | when all refs passed are distinct, each occurs once, so each receives exactly one action from the call |
| `Settings.SettingsProblemSupplier.constructor` | MathUIL/src/suppliers/SettingsProblemSupplier.java:14 | the list starts absent (null), and no action has been made yet |
| `Settings.SettingsProblemSupplier.Settings` | MathUIL/src/suppliers/SettingsProblemSupplier.java:16-22 | empty while the list is absent, otherwise the list's contents; being a value, it cannot be used to change the registry |
| `Settings.SettingsProblemSupplier.AddAllSettings` | MathUIL/src/suppliers/SettingsProblemSupplier.java:25-35 | the list then exists; the settings are appended in argument order after those already there, which keep their positions; one new action owned by this supplier is made; every ref keeps its values and gains that action once per occurrence; with distinct, action-free refs, every ref has exactly that one action; with no arguments, the contents do not change |
| `Settings.AddFirstSetting` | MathUIL/src/suppliers/SettingsProblemSupplier.java:25-35 | the single-setting call a constructor makes on an empty registry: the list becomes exactly that setting, and its ref carries exactly the one new action |
| `MathComplex.HasRealPart` | MathUIL/src/math/Complex.java:133-135 | the real part does not compare equal to zero |
| `MathComplex.HasImaginaryPart` | MathUIL/src/math/Complex.java:141-143 | the imaginary part does not compare equal to zero |
| `MathComplex.FromLongs` | MathUIL/src/math/Complex.java:55-57 | the real part is `a` and the imaginary part is `b`, exactly; each part is nonzero exactly when its argument is |
| `MathComplex.FromLong` | MathUIL/src/math/Complex.java:62-64 | the real part is the long exactly and the imaginary part is 0; there is no imaginary part |
| `MathComplex.FromDecimal` | MathUIL/src/math/Complex.java:34-36 | the real part is the decimal; there is no imaginary part |
| `MathComplex.Equals` | MathUIL/src/math/Complex.java:100-113 | true exactly when the argument is a `Complex` with equal values in both parts, so representations such as 1.0 and 1.00 compare equal |
| `MathComplex.Sum` | MathUIL/src/math/Complex.java:115-117 | the real parts are added together and the imaginary parts together |
| `MathComplex.SumLaws` | MathUIL/src/math/Complex.java:13-17 | exact `sum` is commutative and associative, and `ZERO` is its identity on both sides |
| `MathComplex.SumRounded` | MathUIL/src/math/Complex.java:119-121 | under a rounding that changes nothing, the same as the exact sum |
| `MathComplex.Multiply` | MathUIL/src/math/Complex.java:123-127 | under a rounding that changes nothing, real part `ac - bd` and imaginary part `ad + bc` |
| `MathComplex.MultiplyCommutes` | MathUIL/src/math/Complex.java:124-125 | under every rounding the product does not depend on the order of its factors |
| `MathComplex.ConjugatesMultiplyToReal` | MathUIL/src/math/Complex.java:123-127 | `(1+i)(1-i) = 2` exactly |
| `MathComplex.Parse` | MathUIL/src/math/Complex.java:71-82 | with no `+`, the whole string is the real part and the imaginary part is 0; a part the decimal grammar rejects gives a `NumberFormatException` |
| `MathComplex.ParseSplitsAtFirstPlus` | MathUIL/src/math/Complex.java:73-77 | `x+y` followed by one more character, with no `+` in `x`, parses as real part `x` and imaginary part `y` |
| `MathComplex.ParseTrailingPlus` | MathUIL/src/math/Complex.java:76 | a string whose first `+` is its last character has no imaginary text, so `substring` fails if the real part parsed |
| `MathComplex.DecimalRemainder` | MathUIL/src/math/Complex.java:160 | `BigDecimal.remainder`: fails on a zero divisor; otherwise `x = q*d + r` with `q` the quotient truncated toward zero, `r` of the dividend's sign and smaller than `d` in size |
| `MathComplex.RemainderMeaning` | MathUIL/src/math/Complex.java:145-150 | `x - trunc(x/d)*d` satisfies that description for every nonzero divisor and every sign of `x` and `d` |
| `MathComplex.RemainderIsNotModulo` | MathUIL/src/math/Complex.java:149 | `-1` remainder `3` is `-1`, while the modulo is `2` |
| `MathComplex.Remainder` | MathUIL/src/math/Complex.java:151-155 | an imaginary divisor is rejected first with its message, then an imaginary dividend with its own; otherwise a zero divisor fails with `DivisionByZero`; a success has no imaginary part and is the truncated remainder of the real parts |
| `MathComplex.RemainderByDecimal` | MathUIL/src/math/Complex.java:157-161 | an imaginary dividend is rejected with its message; otherwise a zero divisor fails with `DivisionByZero`; a success has no imaginary part and is the truncated remainder |
| `MathComplex.RemainderByLong` | MathUIL/src/math/Complex.java:163-165 | an imaginary dividend is rejected with its message; otherwise a zero divisor fails with `DivisionByZero`; a success has no imaginary part and is the truncated remainder of the real part by the long |
| `MathComplex.LongValueExact` | MathUIL/src/math/Complex.java:167-171 | fails with MathUIL's message on an imaginary part; otherwise succeeds exactly when the real part is a whole number within `long` range, and returns it |
| `MathComplex.LongRoundTrip` | MathUIL/src/math/Complex.java:62-64 | `new Complex(n).longValueExact()` is `n` for every long |
| `ExponentApproximation.Term` | MathUIL/src/suppliers/exponentiation/ExponentApproximationSupplier.java:44-46 | `getTerm(b, e)`, the text `b^e`; its properties are the two rows below |
| `ExponentApproximation.TermCounts` | MathUIL/src/suppliers/exponentiation/ExponentApproximationSupplier.java:44-46 | a term holds exactly one `^` and no operator character |
| `ExponentApproximation.TermRoundTrip` | MathUIL/src/suppliers/exponentiation/ExponentApproximationSupplier.java:45 | splitting a term at its `^` reads back the drawn base and exponent |
| `ExponentApproximation.Op` | MathUIL/src/suppliers/exponentiation/ExponentApproximationSupplier.java:38-42 | always `*` or `/`, and `/` exactly when division is on and the coin says so |
| `ExponentApproximation.PairCounts` | MathUIL/src/suppliers/exponentiation/ExponentApproximationSupplier.java:32 | one appended term-operator pair holds one `^` and one operator character, which is `*` when division is off |
| `ExponentApproximation.ChainCounts` | MathUIL/src/suppliers/exponentiation/ExponentApproximationSupplier.java:31-32 | `i` term-operator pairs hold `i` carets and `i` operators, none of them `/` when division is off |
| `ExponentApproximation.ExpressionCounts` | MathUIL/src/suppliers/exponentiation/ExponentApproximationSupplier.java:29-33 | with `n` drawn as the term count, the expression has `n + 1` terms and `n` operators; without division every operator is `*` |
| `ExponentApproximation.ExponentApproximationSupplier.constructor` | MathUIL/src/suppliers/exponentiation/ExponentApproximationSupplier.java:23-26 | registers the flag "Divison" (on), then "Terms", "Exponents" and "Bases" with the default ranges, in that order; each carries exactly the one action of that call |
| `ExponentApproximation.ExponentApproximationSupplier.NewSettings` | MathUIL/src/suppliers/exponentiation/ExponentApproximationSupplier.java:19-25 | a fresh flag set to true and three fresh, distinct, valid ranges with the stores' values and names |
| `ExponentApproximation.ExponentApproximationSupplier.RegisterSettings` | MathUIL/src/suppliers/exponentiation/ExponentApproximationSupplier.java:24-25 | on an empty registry, the list becomes the four settings in call order, each with only the new action, and no value changes |
| `ExponentApproximation.ExponentApproximationSupplier.Get` | MathUIL/src/suppliers/exponentiation/ExponentApproximationSupplier.java:28-36 | with the draws in their ranges, the string built is the expression of those draws |
| `ExponentApproximation.ExponentApproximationSupplier.BuildExpression` | MathUIL/src/suppliers/exponentiation/ExponentApproximationSupplier.java:30-34 | the `StringBuilder` loop builds exactly one term-operator pair per coin and then a last term |
| `ExponentApproximation.ExponentApproximationSupplier.DrawsArePositive` | MathUIL/src/suppliers/exponentiation/ExponentApproximationSupplier.java:19 | every base and exponent a valid supplier can draw is at least 1 |
| `GeometricSequences.ReciprocalBound` | MathUIL/src/suppliers/sequences/GeometricSequencesSupplier.java:27 | `1/d` exists for every `d >= 2` and lies in `(0, 1/2]` |
| `GeometricSequences.GeometricSequencesSupplier.constructor` | MathUIL/src/suppliers/sequences/GeometricSequencesSupplier.java:17-18 | the three ranges have the stores' defaults and names |
| `GeometricSequences.GeometricSequencesSupplier.Get` | MathUIL/src/suppliers/sequences/GeometricSequencesSupplier.java:25-35 | never fails; the ratio is `1/d` or `-1/d`, negative exactly on the coin, nonzero and at most 1/2 in size; the first term is `n/m`; the second coin alone gives a sum problem or a term problem; a term problem's index is the drawn one, in [6, 12] |
| `Common.Shuffled` | MathUIL/src/suppliers/bases/BaseAToPowerOfASupplier.java:23-30 | `Problem.shuffled(x, y)` with its draw as a parameter: two values that are `x` and `y` in one order or the other |
| `BaseAToPowerOfA.GenerateBases` | MathUIL/src/suppliers/bases/BaseAToPowerOfASupplier.java:19-31 | always an ordering of one of {2,4}, {2,8}, {2,16}, {3,9}, {4,16} |
| `BaseAToPowerOfA.EveryPairGenerated` | MathUIL/src/suppliers/bases/BaseAToPowerOfASupplier.java:19-31 | conversely, every such pair in either order comes from some draws |
| `BaseAToPowerOfA.LargerIsPowerOfSmaller` | MathUIL/src/suppliers/bases/BaseAToPowerOfASupplier.java:11 | in every pair the larger base is the smaller raised to a whole power of at least 2 |
| `BaseAToPowerOfA.BaseAToPowerOfASupplier.constructor` | MathUIL/src/suppliers/bases/BaseAToPowerOfASupplier.java:33-37 | exactly one setting, "Base 10 value of number" with the store's defaults, carrying exactly one action |
| `BaseAToPowerOfA.BaseAToPowerOfASupplier.Get` | MathUIL/src/suppliers/bases/BaseAToPowerOfASupplier.java:40-46 | the question's base and the answer's base are the generated pair, in that order; the decimal text reads back as the drawn value, which lies in [1, 10000] |
| `BaseAToPowerOfA.BaseAToPowerOfASupplier.GetName` | MathUIL/src/suppliers/bases/BaseAToPowerOfASupplier.java:49-51 | the constant display name "Base a to a^n" |
| `FractionsSupplier.OperandFraction` | MathUIL/src/suppliers/fractions/MultiplyingOrDividingAnyFractionsSupplier.java:16-17 | a fraction of two operands from [1, 50] exists and lies in [1/50, 50] |
| `FractionsSupplier.MultiplyingOrDividingAnyFractionsSupplier.constructor` | MathUIL/src/suppliers/fractions/MultiplyingOrDividingAnyFractionsSupplier.java:19-24 | registers num1, denom1, num2 and denom2 in that order with the default ranges, each with exactly the one new action; both denominators are named "First denominator" |
| `FractionsSupplier.MultiplyingOrDividingAnyFractionsSupplier.NewSettings` | MathUIL/src/suppliers/fractions/MultiplyingOrDividingAnyFractionsSupplier.java:19-20 | four fresh, distinct, valid ranges with the stores' values and the names MathUIL gives them |
| `FractionsSupplier.MultiplyingOrDividingAnyFractionsSupplier.RegisterSettings` | MathUIL/src/suppliers/fractions/MultiplyingOrDividingAnyFractionsSupplier.java:23 | on an empty registry, the list becomes the four ranges in call order, each with only the new action, and no value changes |
| `FractionsSupplier.MultiplyingOrDividingAnyFractionsSupplier.Get` | MathUIL/src/suppliers/fractions/MultiplyingOrDividingAnyFractionsSupplier.java:27-34 | never fails (no zero denominator); the fractions are first-numerator over second-numerator and first-denominator over second-denominator, as the Java code wires them; both lie in [1/50, 50]; the coin alone picks division or multiplication |
| `Multiply25.Multiply25Supplier.constructor` | MathUIL/src/suppliers/pemdas/Multiply25Supplier.java:22-25 | the digit range [1, 4] with the given sub-range, registered as the one setting "Digits in non-25 term" with one action |
| `Multiply25.Multiply25Supplier.Create` | MathUIL/src/suppliers/pemdas/Multiply25Supplier.java:22-23 | succeeds exactly when `lowDigits >= 1` and `highDigits <= 4`; otherwise it fails with the `IntRange` exception |
| `Multiply25.Multiply25Supplier.Default` | MathUIL/src/suppliers/pemdas/Multiply25Supplier.java:18-20 | the default sub-range [1, 3] |
| `Multiply25.Multiply25Supplier.LowDigits` | MathUIL/src/suppliers/pemdas/Multiply25Supplier.java:33-35 | the digit range's current low, at least 1 under the invariant |
| `Multiply25.Multiply25Supplier.HighDigits` | MathUIL/src/suppliers/pemdas/Multiply25Supplier.java:37-39 | the digit range's current high, at most 4 under the invariant |
| `Multiply25.Multiply25Supplier.Get` | MathUIL/src/suppliers/pemdas/Multiply25Supplier.java:28-31 | the two factors are the drawn term and 25, in some order, and both are below 10^4 |
| `Multiply25.Multiply25Supplier.GetName` | MathUIL/src/suppliers/pemdas/Multiply25Supplier.java:42-44 | the constant display name "Multiply by 25" |
| `Squares.Square` | MathUIL/src/suppliers/exponentiation/SquaresSupplier.java:33 | `"<n>^2"` reads back as `n` |
| `Squares.SquareInjective` | MathUIL/src/suppliers/exponentiation/SquaresSupplier.java:33 | different bases give different expressions |
| `Squares.SquaresSupplier.constructor` | MathUIL/src/suppliers/exponentiation/SquaresSupplier.java:26-29 | the range [0, 200] with the given sub-range, registered as the one setting "Base" with one action |
| `Squares.SquaresSupplier.Create` | MathUIL/src/suppliers/exponentiation/SquaresSupplier.java:26-27 | succeeds exactly when `minBase >= 0` and `maxBase <= 200`; otherwise it fails with the `IntRange` exception |
| `Squares.SquaresSupplier.Default` | MathUIL/src/suppliers/exponentiation/SquaresSupplier.java:22-24 | the default sub-range [1, 30] |
| `Squares.SquaresSupplier.MinBase` | MathUIL/src/suppliers/exponentiation/SquaresSupplier.java:36-38 | the range's current low, at least 0 under the invariant |
| `Squares.SquaresSupplier.MaxBase` | MathUIL/src/suppliers/exponentiation/SquaresSupplier.java:40-42 | the range's current high, at most 200 under the invariant |
| `Squares.SquaresSupplier.Get` | MathUIL/src/suppliers/exponentiation/SquaresSupplier.java:32-34 | the expression reads back as the drawn base, which lies in [0, 200] |
| `SumOfSquaresX3X.SumOfSquaresRoundTrip` | MathUIL/src/suppliers/exponentiation/SumOfSquaresX3XSupplier.java:31 | `"<a>^2+<b>^2"` splits at its first `+` into squares that read back as `a` and `b` |
| `SumOfSquaresX3X.SumOfSquaresX3XSupplier.constructor` | MathUIL/src/suppliers/exponentiation/SumOfSquaresX3XSupplier.java:23-25 | exactly one setting, "Base of smaller term" with the store's defaults, carrying exactly one action |
| `SumOfSquaresX3X.SumOfSquaresX3XSupplier.Get` | MathUIL/src/suppliers/exponentiation/SumOfSquaresX3XSupplier.java:28-32 | the expression reads back as `a` and a second base exactly three times `a`, with `a` in [1, 30] (so `3 * a` cannot overflow) |
| `SumOfSquaresX3X.SumOfSquaresX3XSupplier.GetName` | MathUIL/src/suppliers/exponentiation/SumOfSquaresX3XSupplier.java:35-37 | the constant display name "Sum of squares with bases x and 3x" |


## Left out

- `MathComplex.Multiply`: the product is stated only under a rounding that changes nothing. `MathContext` rounding is an uninterpreted function, so no tolerance is claimed for rounded results.
- `MathComplex.SumRounded`: stated only under a rounding that changes nothing, for the same reason.
- `MathComplex.Parse`: when the string has a `+`, its contract states the result only through `ParseSplitsAtFirstPlus` and `ParseTrailingPlus`. The `BigDecimal(String)` grammar is a parameter `dec`, which is `None` for text it rejects.
- The `double` constructors of `Complex`, its `toString` and `hashCode` (floating point and `BigDecimal` scale), and the two-`BigDecimal` constructor's null checks.
- `IntRange.named` and `IntRange.from` (IntRange.java:14-20) do the same as `NamedIntRange.OfBounds` and `OfStore`.
- `MutableIntRef`, `MutableBooleanRef` and `Ref` are not part of this model. A ref's value and change-action list are fields of the object that owns them. Nothing is claimed about what `set` returns, or about whether a change runs the actions.
- `lowRef()` and `highRef()` (IntRange.java:98-104) hand out the two refs themselves. The model has no ref objects, so it cannot capture a caller that registers or removes an action on one ref alone. `Refs.IntRange.Valid` keeps the two action lists equal, which is what the `assert` at IntRange.java:150 and `getChangeActionsUnmodifiable` rely on; a caller of `lowRef()` could break that in the Java code.
- `Settings.Setting.Ref`: a `NamedIntRange` or `NamedSetting` is taken to pass `addChangeAction` on to the ref it names. `NamedSetting.of` does not override `addChangeAction`, and `Ref`, which would supply that behaviour, is not part of this model.
- `Refs.RemoveFirst`, `Refs.IntRange.AddChangeAction` and `Refs.IntRange.RemoveChangeAction`: a ref's `addChangeAction` is taken to append to its list, and its `removeChangeAction` to remove the first occurrence and report whether there was one, as `java.util.List.remove(Object)` does. `MutableIntRef` and `MutableBooleanRef` are not part of this model.
- `MathComplex.Parse`: `abi.length() - 1` counts UTF-16 code units, while the model drops the last character of a `seq<char>`. The two differ only when the string ends in a character outside the Basic Multilingual Plane.
- `NamedRanges.NamedIntRange.OfBounds` and `NamedRanges.NamedIntRange.OfStore` take the name as a `string`, which is never null. The null name that `Objects.requireNonNull` rejects is modelled only by `NamedRanges.NamedIntRange.New`.
- `settingsChanged` and the running of change actions. An action is only a value naming its owner.
- `Settings.SettingsProblemSupplier.AddAllSettings`: the list is appended before the actions are registered, not after. The order cannot be observed, because nothing runs an action in between and the list is not one of the refs.
- Randomness (`Math.random`, `RAND`, `Problem.intInclusive`, `Problem.shuffled`, `Problem.intWithDigits`) is not modelled. Each outcome is a parameter, and its range is a precondition.
- `ExponentApproximation.Op`: takes a coin even when division is off. The Java code then draws none, because `&&` short-circuits.
- `Multiply25.Multiply25Supplier.Get`: the drawn term is required to have between `lowDigits()` and `highDigits()` decimal digits. This is the assumed meaning of `intWithDigits`, which is not part of this model.
- `BigFraction`, `GeometricSequence`, `Evaluator`, `Utils.convertBase`, `Prettifier`, `Builder`, `SimpleExpression`, `BigFractionValued` and `FracSupUtils` are not part of this model. A fraction is its exact value, and `BigFraction.of` is assumed to fail only on a zero denominator. A problem is the data handed to these classes. No answer value, base conversion, ordinal suffix or approximation tolerance is claimed.
- `RangeStore` is not part of this model. `RangeStore.of(min, max)` is taken to have the sub-range `[min, max]`.
- The `GeometricSequencesSupplier` constructor calls `settings(sNum, sDenom, rDenom)`. No method of that shape exists in the `SettingsProblemSupplier` source, so its effect is not modelled, and the supplier has no registry here.
- `ProblemPane` (the JavaFX user interface) and `NamedSetting`. A `NamedSetting` is folded into the `Setting` datatype as a name plus a ref.
- Java `int` overflow is written out only where an operation can reach it: `valueRange`, `maxValueRange`, and `3 * a` in the sum of squares. Everywhere else the values are bounded by the ranges.
