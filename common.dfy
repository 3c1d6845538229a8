/** Java's fixed-width integers, the exceptions the core raises, and the
    failure-carrying result types that stand for them. */
module Common {

  const MIN_INT: int := -0x8000_0000
  const MAX_INT: int := 0x7fff_ffff
  const MIN_LONG: int := -0x8000_0000_0000_0000
  const MAX_LONG: int := 0x7fff_ffff_ffff_ffff

  /** Java `int`. */
  type Int32 = x: int | -0x8000_0000 <= x <= 0x7fff_ffff

  /** Java `long`. */
  type Long = x: int | -0x8000_0000_0000_0000 <= x <= 0x7fff_ffff_ffff_ffff

  /** The exceptions the modelled code throws (or lets through from the JDK). */
  datatype Error =
    | IllegalArgument(message: string)  // IllegalArgumentException, with the message MathUIL gives
    | Arithmetic(message: string)       // ArithmeticException thrown by MathUIL's own code
    | DivisionByZero                    // ArithmeticException of a division by zero
    | NotAnExactLong                    // ArithmeticException of BigDecimal.longValueExact
    | NumberFormat                      // NumberFormatException of new BigDecimal(String)
    | IndexOutOfBounds                  // StringIndexOutOfBoundsException of String.substring
    | NullArgument                      // what Objects.requireNonNull throws on null

  datatype Result<+T> = Ok(value: T) | Err(error: Error)

  datatype Outcome = Pass | Fail(error: Error)

  datatype Option<+T> = None | Some(value: T)

  /** Java `int` arithmetic: the int congruent to `x` modulo 2^32. */
  function Wrap32(x: int): (r: Int32)
    ensures MIN_INT <= x <= MAX_INT ==> r == x
    ensures (x - r) % 0x1_0000_0000 == 0
  {
    (x - MIN_INT) % 0x1_0000_0000 + MIN_INT
  }

  /** The integers from `lo` to `hi` inclusive. */
  ghost function IntsBetween(lo: int, hi: int): (r: set<int>)
    ensures forall x :: x in r ==> lo <= x <= hi
    decreases hi - lo
  {
    if hi < lo then {} else IntsBetween(lo, hi - 1) + {hi}
  }

  lemma {:induction false} CardIntsBetween(lo: int, hi: int)
    requires lo <= hi + 1
    ensures |IntsBetween(lo, hi)| == hi - lo + 1
    decreases hi - lo
  {
    if lo <= hi {
      CardIntsBetween(lo, hi - 1);
    }
  }

  /** `Problem.shuffled(x, y)`: the two values in an order chosen by the
      draw `swapped`. */
  function Shuffled(x: int, y: int, swapped: bool): (r: seq<int>)
    ensures |r| == 2 && multiset(r) == multiset{x, y}
  {
    if swapped then [y, x] else [x, y]
  }
}
