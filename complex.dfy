/** `math.Complex`: an immutable complex number a+bi whose parts are exact
    decimals. The parts are modelled as `real`, so two parts are equal exactly
    when `BigDecimal.compareTo` reports 0. */
module MathComplex {
  import opened Common
  import opened Strings

  datatype Complex = Complex(a: real, b: real)

  /** A `MathContext`: how a `BigDecimal` result is rounded. */
  type Rounding = real -> real

  const ZERO: Complex := FromLong(0)

  const DIVISOR_MESSAGE := "Cannot find the remainder when the divisor has an imaginary part"
  const DIVIDEND_MESSAGE := "Cannot find the remainder when the dividend has an imaginary part"
  const LONG_MESSAGE := "This complex number has an imaginary part, so it does not have an exact long value."

  /** `hasRealPart()`: the real part does not compare equal to zero. */
  function HasRealPart(c: Complex): (r: bool)
    ensures r <==> CompareTo(c.a, 0.0) != 0
  {
    c.a != 0.0
  }

  /** `hasImaginaryPart()`: the imaginary part does not compare equal to zero. */
  function HasImaginaryPart(c: Complex): (r: bool)
    ensures r <==> CompareTo(c.b, 0.0) != 0
  {
    c.b != 0.0
  }

  /** `new Complex(long a, long b)`: both parts taken exactly. */
  function FromLongs(a: Long, b: Long): (c: Complex)
    ensures HasRealPart(c) <==> a != 0
    ensures HasImaginaryPart(c) <==> b != 0
    ensures c.a == a as real && c.b == b as real
  {
    Complex(a as real, b as real)
  }

  /** `new Complex(long a)`: the imaginary part is 0. */
  function FromLong(a: Long): (c: Complex)
    ensures !HasImaginaryPart(c)
    ensures HasRealPart(c) <==> a != 0
    ensures c.a == a as real && c.b == 0.0
  {
    FromLongs(a, 0)
  }

  /** `new Complex(BigDecimal a)`: the imaginary part is 0. */
  function FromDecimal(a: real): (c: Complex)
    ensures !HasImaginaryPart(c)
    ensures HasRealPart(c) <==> a != 0.0
    ensures c.a == a
  {
    Complex(a, 0.0)
  }

  /** `BigDecimal.compareTo`. */
  function CompareTo(x: real, y: real): (r: int)
    ensures r == 0 <==> x == y
    ensures r < 0 <==> x < y
  {
    if x < y then -1 else if x == y then 0 else 1
  }

  /** `equals`: `other` is None when the argument is null or not a Complex. */
  function Equals(x: Complex, other: Option<Complex>): (r: bool)
    ensures r <==> other == Some(x)
  {
    match other
    case None => false
    case Some(y) => CompareTo(x.a, y.a) == 0 && CompareTo(x.b, y.b) == 0
  }

  /** `sum(augend)`: exact, part by part. */
  function Sum(x: Complex, y: Complex): (r: Complex)
    ensures r.a - y.a == x.a && r.b - y.b == x.b
  {
    Complex(x.a + y.a, x.b + y.b)
  }

  /** `sum(augend, mc)`: each part rounded once. */
  function SumRounded(x: Complex, y: Complex, mc: Rounding): (r: Complex)
    ensures (forall t :: mc(t) == t) ==> r == Sum(x, y)
  {
    Complex(mc(x.a + y.a), mc(x.b + y.b))
  }

  /** `multiply(multiplicand, mc)`: every product and the final sum or
      difference are rounded, in the order the Java code computes them. */
  function Multiply(x: Complex, y: Complex, mc: Rounding): (r: Complex)
    ensures (forall t :: mc(t) == t) ==>
      r == Complex(x.a * y.a - x.b * y.b, x.a * y.b + x.b * y.a)
  {
    Complex(mc(mc(x.a * y.a) - mc(x.b * y.b)), mc(mc(x.a * y.b) + mc(x.b * y.a)))
  }

  lemma SumLaws(x: Complex, y: Complex, z: Complex)
    ensures Sum(x, y) == Sum(y, x)
    ensures Sum(x, ZERO) == x && Sum(ZERO, x) == x
    ensures Sum(Sum(x, y), z) == Sum(x, Sum(y, z))
  {
  }

  /** The product is commutative under every rounding, because the Java code
      rounds the two cross terms separately before adding them. */
  lemma MultiplyCommutes(x: Complex, y: Complex, mc: Rounding)
    ensures Multiply(x, y, mc) == Multiply(y, x, mc)
  {
    assert x.a * y.a == y.a * x.a && x.b * y.b == y.b * x.b;
    assert x.a * y.b == y.b * x.a && x.b * y.a == y.a * x.b;
  }

  lemma ConjugatesMultiplyToReal()
    ensures Multiply(FromLongs(1, 1), FromLongs(1, -1), t => t) == FromLongs(2, 0)
  {
  }

  // ---------------------------------------------------------------------
  // Complex(String)

  /** `new Complex(abi)`: split at the first '+'; the real part is the text
      before it, the imaginary part the text after it without the last
      character. `dec` is `new BigDecimal(String)`, None for text it rejects. */
  function Parse(abi: string, dec: string -> Option<real>): (r: Result<Complex>)
    ensures '+' !in abi ==>
      r == (if dec(abi).None? then Err(NumberFormat) else Ok(FromDecimal(dec(abi).value)))
  {
    var p := IndexOf(abi, '+');
    if p >= 0 then
      match dec(abi[..p])
      case None => Err(NumberFormat)
      case Some(a) =>
        if p + 1 > |abi| - 1 then Err(IndexOutOfBounds)
        else
          match dec(abi[p + 1..|abi| - 1])
          case None => Err(NumberFormat)
          case Some(b) => Ok(Complex(a, b))
    else
      match dec(abi)
      case None => Err(NumberFormat)
      case Some(a) => Ok(FromDecimal(a))
  }

  /** "x+y" followed by any last character (normally 'i') is split into x and y. */
  lemma ParseSplitsAtFirstPlus(x: string, y: string, last: char, dec: string -> Option<real>)
    requires '+' !in x
    ensures var r := Parse(x + "+" + y + [last], dec);
      r == if dec(x).None? || dec(y).None? then Err(NumberFormat)
           else Ok(Complex(dec(x).value, dec(y).value))
  {
    var s := x + "+" + y + [last];
    assert s == x + ("+" + y + [last]);
    IndexOfAfter(x, "+" + y + [last], '+');
    assert s[..|x|] == x;
    assert s[|x| + 1..|s| - 1] == y;
  }

  /** A string that ends at its first '+' has no imaginary text to read. */
  lemma ParseTrailingPlus(x: string, dec: string -> Option<real>)
    requires '+' !in x
    ensures Parse(x + "+", dec) == if dec(x).None? then Err(NumberFormat) else Err(IndexOutOfBounds)
  {
    IndexOfAfter(x, "+", '+');
    assert (x + "+")[..|x|] == x;
  }

  // ---------------------------------------------------------------------
  // remainder

  predicate IsInteger(t: real)
  {
    t.Floor as real == t
  }

  /** Truncation toward zero, as `BigDecimal.divideToIntegralValue` does. */
  function Truncate(t: real): (q: int)
    ensures t >= 0.0 ==> q as real <= t < q as real + 1.0
    ensures t <= 0.0 ==> q as real - 1.0 < t <= q as real
  {
    if t >= 0.0 then t.Floor else -((-t).Floor)
  }

  /** What the Java code promises of a remainder: `x == q * d + r` for a whole
      quotient `q`, `r` has the sign of the dividend, and `|r| < |d|`. */
  ghost predicate IsTruncatedRemainder(x: real, d: real, q: int, r: real)
  {
    && d != 0.0
    && x == q as real * d + r
    && (x >= 0.0 ==> r >= 0.0)
    && (x <= 0.0 ==> r <= 0.0)
    && (if r >= 0.0 then r else -r) < (if d >= 0.0 then d else -d)
  }

  /** `BigDecimal.remainder(divisor)`: `x - trunc(x / d) * d`. */
  function DecimalRemainder(x: real, d: real): (r: Result<real>)
    ensures r.Err? <==> d == 0.0
    ensures r.Err? ==> r.error == DivisionByZero
    ensures r.Ok? ==> IsTruncatedRemainder(x, d, Truncate(x / d), r.value)
  {
    if d == 0.0 then Err(DivisionByZero)
    else
      RemainderMeaning(x, d);
      Ok(TruncatedRemainder(x, d))
  }

  function TruncatedRemainder(x: real, d: real): real
    requires d != 0.0
  {
    x - Truncate(x / d) as real * d
  }

  lemma FloorBounds(x: real, d: real, t: real, q: int)
    requires x >= 0.0 && d > 0.0 && t * d == x && q as real <= t < q as real + 1.0
    ensures 0.0 <= x - q as real * d < d
  {
    var e := t - q as real;
    assert x - q as real * d == e * d;
    assert e * d >= 0.0;
    assert d - e * d == (1.0 - e) * d;
    assert (1.0 - e) * d > 0.0;
  }

  lemma RemainderOfNonNegatives(x: real, d: real)
    requires x >= 0.0 && d > 0.0
    ensures IsTruncatedRemainder(x, d, Truncate(x / d), TruncatedRemainder(x, d))
  {
    var t := x / d;
    assert t * d == x;
    FloorBounds(x, d, t, Truncate(t));
  }

  lemma DivisionSigns(x: real, d: real)
    requires d != 0.0
    ensures x / (-d) == -(x / d) && (-x) / d == -(x / d)
  {
    assert (x / d) * d == x;
  }

  lemma NegatedDivisor(x: real, d: real)
    requires d != 0.0
    ensures Truncate(x / (-d)) == -Truncate(x / d)
    ensures TruncatedRemainder(x, -d) == TruncatedRemainder(x, d)
    ensures IsTruncatedRemainder(x, d, Truncate(x / d), TruncatedRemainder(x, d)) ==>
            IsTruncatedRemainder(x, -d, Truncate(x / (-d)), TruncatedRemainder(x, -d))
  {
    DivisionSigns(x, d);
    var q := Truncate(x / d);
    assert (-q) as real * (-d) == q as real * d;
  }

  lemma NegatedDividend(x: real, d: real)
    requires d != 0.0
    ensures Truncate((-x) / d) == -Truncate(x / d)
    ensures TruncatedRemainder(-x, d) == -TruncatedRemainder(x, d)
    ensures IsTruncatedRemainder(x, d, Truncate(x / d), TruncatedRemainder(x, d)) ==>
            IsTruncatedRemainder(-x, d, Truncate((-x) / d), TruncatedRemainder(-x, d))
  {
    DivisionSigns(x, d);
    var q := Truncate(x / d);
    assert (-q) as real * d == -(q as real * d);
  }

  lemma RemainderMeaning(x: real, d: real)
    requires d != 0.0
    ensures IsTruncatedRemainder(x, d, Truncate(x / d), TruncatedRemainder(x, d))
  {
    var ax := if x >= 0.0 then x else -x;
    var ad := if d >= 0.0 then d else -d;
    RemainderOfNonNegatives(ax, ad);
    if x >= 0.0 {
      if d < 0.0 {
        NegatedDivisor(ax, ad);
      }
    } else {
      NegatedDividend(ax, ad);
      if d < 0.0 {
        NegatedDivisor(x, ad);
      }
    }
  }

  /** The remainder is truncated, not a modulo: -1 rem 3 is -1, not 2. */
  lemma RemainderIsNotModulo()
    ensures DecimalRemainder(-1.0, 3.0) == Ok(-1.0)
    ensures -1 % 3 == 2
  {
    assert Truncate(-1.0 / 3.0) == 0;
  }

  /** `remainder(BigDecimal divisor)`. */
  function RemainderByDecimal(x: Complex, d: real): (r: Result<Complex>)
    ensures r.Ok? <==> !HasImaginaryPart(x) && d != 0.0
    ensures HasImaginaryPart(x) ==> r == Err(IllegalArgument(DIVIDEND_MESSAGE))
    ensures !HasImaginaryPart(x) && d == 0.0 ==> r == Err(DivisionByZero)
    ensures r.Ok? ==> !HasImaginaryPart(r.value) && IsTruncatedRemainder(x.a, d, Truncate(x.a / d), r.value.a)
  {
    if HasImaginaryPart(x) then Err(IllegalArgument(DIVIDEND_MESSAGE))
    else
      match DecimalRemainder(x.a, d)
      case Err(e) => Err(e)
      case Ok(v) => Ok(FromDecimal(v))
  }

  /** `remainder(Complex divisor)`: the divisor is checked before the dividend. */
  function Remainder(x: Complex, divisor: Complex): (r: Result<Complex>)
    ensures r.Ok? <==> !HasImaginaryPart(x) && !HasImaginaryPart(divisor) && divisor.a != 0.0
    ensures HasImaginaryPart(divisor) ==> r == Err(IllegalArgument(DIVISOR_MESSAGE))
    ensures !HasImaginaryPart(divisor) && HasImaginaryPart(x) ==> r == Err(IllegalArgument(DIVIDEND_MESSAGE))
    ensures !HasImaginaryPart(divisor) && !HasImaginaryPart(x) && divisor.a == 0.0 ==> r == Err(DivisionByZero)
    ensures r.Ok? ==> !HasImaginaryPart(r.value) && IsTruncatedRemainder(x.a, divisor.a, Truncate(x.a / divisor.a), r.value.a)
  {
    if HasImaginaryPart(divisor) then Err(IllegalArgument(DIVISOR_MESSAGE))
    else RemainderByDecimal(x, divisor.a)
  }

  /** `remainder(long divisor)`. */
  function RemainderByLong(x: Complex, d: Long): (r: Result<Complex>)
    ensures r.Ok? <==> !HasImaginaryPart(x) && d != 0
    ensures HasImaginaryPart(x) ==> r == Err(IllegalArgument(DIVIDEND_MESSAGE))
    ensures !HasImaginaryPart(x) && d == 0 ==> r == Err(DivisionByZero)
    ensures r.Ok? ==> !HasImaginaryPart(r.value) && IsTruncatedRemainder(x.a, d as real, Truncate(x.a / d as real), r.value.a)
  {
    RemainderByDecimal(x, d as real)
  }

  // ---------------------------------------------------------------------
  // longValueExact

  /** `longValueExact()`: fails on an imaginary part; otherwise
      `BigDecimal.longValueExact`, which fails on a fraction or overflow. */
  function LongValueExact(c: Complex): (r: Result<Long>)
    ensures r.Ok? <==> !HasImaginaryPart(c) && IsInteger(c.a) && MIN_LONG as real <= c.a <= MAX_LONG as real
    ensures HasImaginaryPart(c) ==> r == Err(Arithmetic(LONG_MESSAGE))
    ensures r.Ok? ==> r.value as real == c.a
  {
    if HasImaginaryPart(c) then Err(Arithmetic(LONG_MESSAGE))
    else if !IsInteger(c.a) || c.a < MIN_LONG as real || c.a > MAX_LONG as real then Err(NotAnExactLong)
    else Ok(c.a.Floor)
  }

  /** A long survives the round trip through `Complex(long)`. */
  lemma LongRoundTrip(n: Long)
    ensures LongValueExact(FromLong(n)) == Ok(n)
  {
  }
}
