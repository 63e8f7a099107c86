/** Values and helpers shared by every part of the model: optional and failing
    results, the dynamically typed values the pipeline keeps in its feature
    dictionaries, and the Python built-ins (round, str.replace, `in` on strings,
    decimal formatting of integers) whose behaviour the pipeline depends on. */
module Common {

  datatype Option<+T> = None | Some(value: T)

  datatype Result<+T, +E> = Success(value: T) | Failure(error: E)

  /** A value stored in a feature dictionary or a data-frame row: a number,
      positive infinity (`float('inf')`), a string, None, or a float NaN
      (pandas reports both None and NaN as null). */
  datatype Value = Num(x: real) | Inf | Text(s: string) | Null | NaN

  /** pandas' isnull on one value. */
  predicate IsNull(v: Value)
  {
    v.Null? || v.NaN?
  }

  function Min(a: real, b: real): real { if a <= b then a else b }

  function Max(a: real, b: real): real { if a <= b then b else a }

  /** numpy's clip(x, lo, hi). */
  function Clip(x: real, lo: real, hi: real): (r: real)
    requires lo <= hi
    ensures lo <= r <= hi
    ensures lo <= x <= hi ==> r == x
    ensures x < lo ==> r == lo
    ensures x > hi ==> r == hi
  {
    if x < lo then lo else if x > hi then hi else x
  }

  // ---------------------------------------------------------------------
  // Rounding
  // ---------------------------------------------------------------------

  /** Python's round(y): the nearest integer, and the even one on a tie. */
  function RoundHalfEven(y: real): (r: int)
    ensures y - 0.5 <= r as real <= y + 0.5
    ensures (r as real == y + 0.5 || r as real == y - 0.5) ==> r % 2 == 0
  {
    var f := y.Floor;
    var frac := y - f as real;
    if frac < 0.5 then f
    else if frac > 0.5 then f + 1
    else if f % 2 == 0 then f else f + 1
  }

  /** Rounding never leaves an interval with integer end points. */
  lemma RoundHalfEvenBetween(y: real, lo: int, hi: int)
    requires lo as real <= y <= hi as real
    ensures lo <= RoundHalfEven(y) <= hi
  {
  }

  /** Rounding is monotone. */
  lemma RoundHalfEvenMonotone(y1: real, y2: real)
    requires y1 <= y2
    ensures RoundHalfEven(y1) <= RoundHalfEven(y2)
  {
  }

  function Pow10(k: nat): (p: nat)
    ensures p >= 1
  {
    if k == 0 then 1 else 10 * Pow10(k - 1)
  }

  /** Python's round(x, k) on the exact value of x (round half to even at the
      k-th decimal). Binary floating-point representation error is not modelled. */
  function RoundDecimals(x: real, k: nat): real
  {
    RoundScaled(x, Pow10(k) as real)
  }

  function RoundScaled(x: real, p: real): real
    requires p > 0.0
  {
    RoundHalfEven(x * p) as real / p
  }

  lemma RoundScaledBetween(x: real, p: real, lo: int, hi: int)
    requires p > 0.0
    requires (lo as real) / p <= x <= (hi as real) / p
    ensures (lo as real) / p <= RoundScaled(x, p) <= (hi as real) / p
  {
    ScaleUp(lo as real, x, p);
    ScaleUpAbove(x, hi as real, p);
    var r := RoundHalfEven(x * p);
    RoundHalfEvenBetween(x * p, lo, hi);
    DivMonotone(lo as real, r as real, p);
    DivMonotone(r as real, hi as real, p);
  }

  /** round(x, k) stays within [lo / 10^k, hi / 10^k] when x does. */
  lemma RoundDecimalsBetween(x: real, k: nat, lo: int, hi: int)
    requires (lo as real) / (Pow10(k) as real) <= x <= (hi as real) / (Pow10(k) as real)
    ensures (lo as real) / (Pow10(k) as real) <= RoundDecimals(x, k) <= (hi as real) / (Pow10(k) as real)
  {
    RoundScaledBetween(x, Pow10(k) as real, lo, hi);
  }

  /** round(x, k) of a non-negative number is non-negative. */
  lemma RoundDecimalsNonNegative(x: real, k: nat)
    requires x >= 0.0
    ensures RoundDecimals(x, k) >= 0.0
  {
    var p := Pow10(k) as real;
    MulMonotone(0.0, x, p);
    RoundHalfEvenBetween(x * p, 0, (x * p).Floor + 1);
    DivMonotone(0.0, RoundHalfEven(x * p) as real, p);
  }

  lemma RoundScaledMonotone(x: real, y: real, p: real)
    requires x <= y && p > 0.0
    ensures RoundScaled(x, p) <= RoundScaled(y, p)
  {
    MulMonotone(x, y, p);
    RoundHalfEvenMonotone(x * p, y * p);
    DivMonotone(RoundHalfEven(x * p) as real, RoundHalfEven(y * p) as real, p);
  }

  /** round(x, k) stays between two integers that bound x. */
  lemma RoundDecimalsWithin(x: real, k: nat, lo: int, hi: int)
    requires lo as real <= x <= hi as real
    ensures lo as real <= RoundDecimals(x, k) <= hi as real
  {
    var p := Pow10(k);
    assert (lo * p) as real / (p as real) == lo as real;
    assert (hi * p) as real / (p as real) == hi as real;
    RoundDecimalsBetween(x, k, lo * p, hi * p);
  }

  /** Rounding keeps a value of [0, 1] in [0, 1]. */
  lemma RoundDecimalsUnit(x: real, k: nat)
    requires 0.0 <= x <= 1.0
    ensures 0.0 <= RoundDecimals(x, k) <= 1.0
  {
    RoundDecimalsWithin(x, k, 0, 1);
  }

  /** round(x, k) is monotone in x. */
  lemma RoundDecimalsMonotone(x: real, y: real, k: nat)
    requires x <= y
    ensures RoundDecimals(x, k) <= RoundDecimals(y, k)
  {
    RoundScaledMonotone(x, y, Pow10(k) as real);
  }

  lemma RoundScaledInteger(x: real, p: real, m: int)
    requires p > 0.0 && x * p == m as real
    ensures RoundScaled(x, p) == x
  {
    assert RoundHalfEven(x * p) == m;
    assert RoundScaled(x, p) == (m as real) / p;
    assert (x * p) / p == x;
  }

  /** round(n, k) leaves an integer unchanged. */
  lemma RoundDecimalsInteger(n: int, k: nat)
    ensures RoundDecimals(n as real, k) == n as real
  {
    RoundScaledInteger(n as real, Pow10(k) as real, n * Pow10(k));
  }

  lemma MulMonotone(a: real, b: real, p: real)
    requires a <= b && p > 0.0
    ensures a * p <= b * p
  {
  }

  lemma DivMonotone(a: real, b: real, p: real)
    requires a <= b && p > 0.0
    ensures a / p <= b / p
  {
  }

  lemma ScaleUp(a: real, x: real, p: real)
    requires p > 0.0 && a / p <= x
    ensures a <= x * p
  {
    MulMonotone(a / p, x, p);
  }

  lemma ScaleUpAbove(x: real, b: real, p: real)
    requires p > 0.0 && x <= b / p
    ensures x * p <= b
  {
    MulMonotone(x, b / p, p);
  }

  // ---------------------------------------------------------------------
  // Strings
  // ---------------------------------------------------------------------

  function Digit(d: nat): (c: char)
    requires d < 10
    ensures '0' <= c <= '9'
  {
    (48 + d) as char
  }

  /** Python's str(n) for a non-negative integer. */
  function NatToString(n: nat): (s: string)
    ensures |s| > 0
    ensures forall i :: 0 <= i < |s| ==> '0' <= s[i] <= '9'
    decreases n
  {
    if n < 10 then [Digit(n)] else NatToString(n / 10) + [Digit(n % 10)]
  }

  /** Distinct numbers have distinct decimal forms. */
  lemma {:induction false} NatToStringInjective(a: nat, b: nat)
    requires NatToString(a) == NatToString(b)
    ensures a == b
    decreases a
  {
    var s := NatToString(a);
    if a < 10 && b < 10 {
      assert Digit(a) == s[0] == Digit(b);
      assert (Digit(a) as int) == 48 + a;
    } else if a >= 10 && b >= 10 {
      var sa, sb := NatToString(a / 10), NatToString(b / 10);
      assert s == sa + [Digit(a % 10)];
      assert s == sb + [Digit(b % 10)];
      assert |sa| == |sb|;
      assert sa == s[..|s| - 1] == sb;
      assert Digit(a % 10) == s[|s| - 1] == Digit(b % 10);
      assert (Digit(a % 10) as int) == 48 + a % 10;
      NatToStringInjective(a / 10, b / 10);
    }
  }

  predicate IsPrefix(p: string, s: string)
  {
    |p| <= |s| && s[..|p|] == p
  }

  /** Python's `sub in s`. */
  predicate Contains(s: string, sub: string)
    decreases |s|
  {
    IsPrefix(sub, s) || (|s| > 0 && Contains(s[1..], sub))
  }

  /** A string without the first character of sub does not contain sub. */
  lemma {:induction false} NotContainsWithoutFirst(s: string, sub: string)
    requires |sub| > 0 && sub[0] !in s
    ensures !Contains(s, sub)
    decreases |s|
  {
    if |s| > 0 {
      assert s == [s[0]] + s[1..];
      assert !IsPrefix(sub, s) by {
        if |sub| <= |s| {
          assert s[..|sub|][0] == s[0];
        }
      }
      NotContainsWithoutFirst(s[1..], sub);
    }
  }

  /** Python's s.replace(pat, rep), scanning left to right without overlaps. */
  function ReplaceAll(s: string, pat: string, rep: string): (r: string)
    requires |pat| > 0
    ensures !Contains(s, pat) ==> r == s
    decreases |s|
  {
    if |s| == 0 then s
    else if IsPrefix(pat, s) then rep + ReplaceAll(s[|pat|..], pat, rep)
    else [s[0]] + ReplaceAll(s[1..], pat, rep)
  }

  /** Python's s.replace(c, '', 1): drop the first occurrence of c. */
  function RemoveFirst(s: string, c: char): (r: string)
    ensures |r| == |s| - 1 || r == s
    ensures c !in s ==> r == s
  {
    if |s| == 0 then s
    else if s[0] == c then s[1..]
    else [s[0]] + RemoveFirst(s[1..], c)
  }

  /** Python's str.isdigit() restricted to ASCII digits: non-empty and all digits. */
  predicate IsDigits(s: string)
  {
    |s| > 0 && forall i :: 0 <= i < |s| ==> '0' <= s[i] <= '9'
  }
}
