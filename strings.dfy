/** Decimal rendering of integers (Java's `Integer.toString` and `%d`),
    the parse that undoes it, and `String.indexOf` for one character. */
module Strings {
  import opened Common

  predicate IsDigit(c: char)
  {
    '0' <= c <= '9'
  }

  predicate AllDigits(s: string)
  {
    forall i :: 0 <= i < |s| ==> IsDigit(s[i])
  }

  function DigitChar(d: int): (c: char)
    requires 0 <= d <= 9
    ensures IsDigit(c) && c as int - '0' as int == d
  {
    ('0' as int + d) as char
  }

  /** `Integer.toString(n)`: a minus sign for negative numbers, then the
      decimal digits of the magnitude. */
  function IntToString(n: int): (s: string)
    ensures |s| >= 1
    ensures n >= 0 <==> IsDigit(s[0])
    ensures forall i :: 0 <= i < |s| ==> IsDigit(s[i]) || (i == 0 && s[i] == '-')
    decreases if n < 0 then 1 - n else n
  {
    if n < 0 then "-" + IntToString(-n)
    else if n < 10 then [DigitChar(n)]
    else IntToString(n / 10) + [DigitChar(n % 10)]
  }

  /** The value of a string of decimal digits. */
  function ParseNat(s: string): nat
    requires AllDigits(s)
    decreases |s|
  {
    if s == [] then 0 else ParseNat(s[..|s| - 1]) * 10 + (s[|s| - 1] as int - '0' as int)
  }

  /** An optional minus sign followed by at least one digit. */
  function ParseInt(s: string): Option<int>
  {
    if |s| >= 2 && s[0] == '-' && AllDigits(s[1..]) then Some(0 - ParseNat(s[1..]) as int)
    else if |s| >= 1 && AllDigits(s) then Some(ParseNat(s))
    else None
  }

  lemma {:induction false} NatRoundTrip(n: nat)
    ensures AllDigits(IntToString(n)) && ParseNat(IntToString(n)) == n
    decreases n
  {
    if n >= 10 {
      var s := IntToString(n);
      assert s[..|s| - 1] == IntToString(n / 10);
      NatRoundTrip(n / 10);
    }
  }

  /** Reading back what `Integer.toString` wrote gives the same number. */
  lemma IntRoundTrip(n: int)
    ensures ParseInt(IntToString(n)) == Some(n)
  {
    if n < 0 {
      NatRoundTrip(-n);
      assert IntToString(n)[1..] == IntToString(-n);
    } else {
      NatRoundTrip(n);
    }
  }

  /** `s.indexOf(c)`: the first position of `c` in `s`, or -1. */
  function IndexOf(s: string, c: char): (p: int)
    ensures -1 <= p < |s|
    ensures p == -1 <==> c !in s
    ensures p >= 0 ==> s[p] == c && c !in s[..p]
    decreases |s|
  {
    if s == [] then -1
    else if s[0] == c then 0
    else
      var q := IndexOf(s[1..], c);
      if q < 0 then -1 else q + 1
  }

  /** The first `c` in `x + y` is the first in `y`, shifted, when `x` has none. */
  lemma {:induction false} IndexOfAfter(x: string, y: string, c: char)
    requires c !in x
    ensures IndexOf(x + y, c) == if c in y then |x| + IndexOf(y, c) else -1
    decreases |x|
  {
    if x == [] {
      assert x + y == y;
    } else {
      assert x == [x[0]] + x[1..];
      assert (x + y)[0] == x[0];
      assert (x + y)[1..] == x[1..] + y;
      IndexOfAfter(x[1..], y, c);
    }
  }

  /** Number of occurrences of `c` in `s`. */
  function Count(s: string, c: char): (n: nat)
    ensures n <= |s|
  {
    if |s| == 0 then 0 else (if s[0] == c then 1 else 0) + Count(s[1..], c)
  }

  lemma {:induction false} CountAbsent(s: string, c: char)
    ensures Count(s, c) == 0 <==> c !in s
  {
    if |s| > 0 {
      assert s == [s[0]] + s[1..];
      CountAbsent(s[1..], c);
    }
  }

  lemma {:induction false} CountAppend(a: string, b: string, c: char)
    ensures Count(a + b, c) == Count(a, c) + Count(b, c)
  {
    if |a| > 0 {
      assert (a + b)[1..] == a[1..] + b;
      CountAppend(a[1..], b, c);
    } else {
      assert a + b == b;
    }
  }

  /** A character that is neither a digit nor a minus sign never appears in
      what `Integer.toString` writes. */
  lemma NotInIntToString(n: int, c: char)
    requires !IsDigit(c) && c != '-'
    ensures c !in IntToString(n) && Count(IntToString(n), c) == 0
  {
    CountAbsent(IntToString(n), c);
  }

  /** Splitting `x + [c] + y` at its first `c` gives back `x` and `y`. */
  lemma SplitAtFirst(x: string, y: string, c: char)
    requires c !in x
    ensures IndexOf(x + [c] + y, c) == |x|
    ensures (x + [c] + y)[..|x|] == x && (x + [c] + y)[|x| + 1..] == y
  {
    assert x + [c] + y == x + ([c] + y);
    IndexOfAfter(x, [c] + y, c);
  }

  function Pow10(k: nat): (r: nat)
    ensures r >= 1
  {
    if k == 0 then 1 else 10 * Pow10(k - 1)
  }

  /** A number written with at most `k` digits is below `10^k`. */
  lemma {:induction false} DigitsBound(n: nat, k: nat)
    requires |IntToString(n)| <= k
    ensures n < Pow10(k)
    decreases n
  {
    if n >= 10 {
      DigitsBound(n / 10, k - 1);
    }
  }
}
