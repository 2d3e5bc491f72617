/**
 * The parts of Java's arithmetic and string library that the model relies on:
 * 32-bit int bounds, the `(int)` cast of a double, truncating `/` and `%`,
 * `Integer.toString`, `Integer.parseInt`, `String.format("%0Nd")`,
 * `startsWith`, `indexOf` and `equalsIgnoreCase`.
 * Doubles are modelled as exact `real`s.
 */
module JavaLang {
  import opened Wrappers

  const IntMin: int := -0x8000_0000
  const IntMax: int := 0x7fff_ffff

  predicate IsInt32(x: int) { IntMin <= x <= IntMax }

  // ---------------------------------------------------------------------------
  // Numbers
  // ---------------------------------------------------------------------------

  /** Java's `(int) x` for a double `x`: truncation toward zero, saturating at the int range. */
  function DoubleToInt(x: real): (r: int)
    ensures IsInt32(r)
    ensures x >= IntMax as real ==> r == IntMax
    ensures x <= IntMin as real ==> r == IntMin
    ensures IntMin as real < x < IntMax as real && x >= 0.0 ==> r as real <= x < r as real + 1.0
    ensures IntMin as real < x < IntMax as real && x < 0.0 ==> r as real - 1.0 < x <= r as real
  {
    if x >= IntMax as real then IntMax
    else if x <= IntMin as real then IntMin
    else if x >= 0.0 then x.Floor
    else -((-x).Floor)
  }

  /** Java's `(int) Math.floor(x)`. */
  function FloorToInt(x: real): (r: int)
    ensures IsInt32(r)
    ensures IntMin as real <= x < IntMax as real ==> r as real <= x < r as real + 1.0
  {
    var f := x.Floor;
    if f >= IntMax then IntMax else if f <= IntMin then IntMin else f
  }

  /** Java's int `a / b` for a positive divisor: the quotient truncated toward zero. */
  function Quot(a: int, b: int): (q: int)
    requires b > 0
    ensures a >= 0 ==> 0 <= q && q * b <= a < (q + 1) * b
    ensures a < 0 ==> q <= 0 && (q - 1) * b < a <= q * b
  {
    if a >= 0 then DivBounds(a, b); a / b
    else DivBounds(-a, b); -((-a) / b)
  }

  lemma DivBounds(a: int, b: int)
    requires a >= 0 && b > 0
    ensures 0 <= a / b && (a / b) * b <= a < (a / b + 1) * b
  {
    var q, r := a / b, a % b;
    assert a == q * b + r && 0 <= r < b;
    assert (q + 1) * b == q * b + b;
  }

  /** Java's int `a % b` for a positive divisor: the remainder takes the sign of `a`. */
  function Rem(a: int, b: int): (r: int)
    requires b > 0
    ensures a == Quot(a, b) * b + r
    ensures a >= 0 ==> 0 <= r < b
    ensures a < 0 ==> -b < r <= 0
  {
    a - Quot(a, b) * b
  }

  // ---------------------------------------------------------------------------
  // Decimal strings
  // ---------------------------------------------------------------------------

  predicate IsDigit(c: char) { '0' <= c <= '9' }

  predicate AllDigits(s: string) { forall i :: 0 <= i < |s| ==> IsDigit(s[i]) }

  function DigitChar(d: nat): (c: char)
    requires d < 10
    ensures IsDigit(c) && c as int - '0' as int == d
  {
    ('0' as int + d) as char
  }

  /** The value of a string of decimal digits, most significant first. */
  function DigitsValue(s: string): nat
    requires AllDigits(s)
  {
    if s == [] then 0 else DigitsValue(s[..|s| - 1]) * 10 + (s[|s| - 1] as int - '0' as int)
  }

  /** The decimal digits of `n`, without leading zeros (`Integer.toString` of a non-negative int). */
  function NatToString(n: nat): string
    decreases n
  {
    if n < 10 then [DigitChar(n)] else NatToString(n / 10) + [DigitChar(n % 10)]
  }

  /** `Integer.toString(i)`. */
  function IntToString(i: int): string
  {
    if i < 0 then "-" + NatToString(-i) else NatToString(i)
  }

  /** `NatToString` produces a non-empty digit string without a leading zero whose value is `n`. */
  lemma {:induction false} NatToStringSpec(n: nat)
    ensures |NatToString(n)| >= 1 && AllDigits(NatToString(n))
    ensures NatToString(n)[0] == '0' <==> n == 0
    ensures DigitsValue(NatToString(n)) == n
    decreases n
  {
    if n >= 10 {
      NatToStringSpec(n / 10);
      var s := NatToString(n);
      assert s[..|s| - 1] == NatToString(n / 10);
    }
  }

  /** `10^k`. */
  function Pow10(k: nat): (p: nat)
    ensures p >= 1
  {
    if k == 0 then 1 else 10 * Pow10(k - 1)
  }

  /** `NatToString(n)` has `k` characters when `10^(k-1) <= n < 10^k` (for `k >= 1`). */
  lemma {:induction false} NatToStringLength(n: nat, k: nat)
    requires k >= 1 && (k == 1 || Pow10(k - 1) <= n) && n < Pow10(k)
    ensures |NatToString(n)| == k
    decreases k
  {
    if n >= 10 {
      assert k >= 2;
      NatToStringLength(n / 10, k - 1);
    }
  }

  /**
   * `Integer.parseInt(s)`: an optional `+` or `-` followed by one or more
   * decimal digits whose value lies in the int range; anything else throws
   * NumberFormatException, modelled as `None`.
   */
  function ParseInt(s: string): (r: Option<int>)
    ensures r.Some? ==> IsInt32(r.value)
    ensures r.Some? ==> |s| >= 1
  {
    if s == [] then None
    else
      var negative := s[0] == '-';
      var body := if s[0] == '-' || s[0] == '+' then s[1..] else s;
      if body == [] || !AllDigits(body) then None
      else
        var v := if negative then -(DigitsValue(body) as int) else DigitsValue(body);
        if IsInt32(v) then Some(v) else None
  }

  /** `Integer.parseInt` inverts `Integer.toString` on the whole int range. */
  lemma ParseIntToString(i: int)
    requires IsInt32(i)
    ensures ParseInt(IntToString(i)) == Some(i)
  {
    if i < 0 {
      NatToStringSpec(-i);
      assert IntToString(i)[1..] == NatToString(-i);
    } else {
      NatToStringSpec(i);
    }
  }

  /** `Integer.parseInt` of a digit string in the int range is its value. */
  lemma ParseDigits(t: string)
    requires |t| >= 1 && AllDigits(t) && DigitsValue(t) <= IntMax
    ensures ParseInt(t) == Some(DigitsValue(t))
  {
    assert IsDigit(t[0]);
  }

  /** A slice of a digit string is a digit string. */
  lemma SliceDigits(s: string, i: nat, j: nat)
    requires AllDigits(s) && i <= j <= |s|
    ensures AllDigits(s[i..j])
  {
    assert forall k :: 0 <= k < j - i ==> s[i..j][k] == s[i + k];
  }

  /** `Integer.parseInt` rejects a lone sign. */
  lemma ParseIntLoneSign()
    ensures ParseInt("-") == None && ParseInt("+") == None
  {
  }

  /**
   * `String.format("%0" + width + "d", n)`: the decimal form of `n`, padded
   * with zeros after the sign up to `width` characters.
   */
  function ZeroPadded(n: int, width: nat): (s: string)
  {
    var digits := NatToString(if n < 0 then -n else n);
    var sign := if n < 0 then "-" else "";
    var pad := if |sign| + |digits| < width then width - |sign| - |digits| else 0;
    sign + seq(pad, _ => '0') + digits
  }

  /** For a non-negative `n`, `ZeroPadded` is exactly `width` digits when `n` fits, and its value is `n`. */
  lemma ZeroPaddedValue(n: nat, width: nat)
    requires n < Pow10(width)
    ensures |ZeroPadded(n, width)| == width || (width == 0 && |ZeroPadded(n, width)| == 1)
    ensures AllDigits(ZeroPadded(n, width))
    ensures DigitsValue(ZeroPadded(n, width)) == n
  {
    var digits := NatToString(n);
    NatToStringSpec(n);
    NatToStringFits(n, width);
    var pad := if |digits| < width then width - |digits| else 0;
    var zeros := seq(pad, _ => '0');
    assert ZeroPadded(n, width) == zeros + digits;
    LeadingZeros(zeros, digits);
  }

  lemma {:induction false} NatToStringFits(n: nat, width: nat)
    requires n < Pow10(width)
    ensures |NatToString(n)| <= width || width == 0
    decreases width
  {
    if n >= 10 {
      assert Pow10(1) == 10;
      assert width >= 2;
      NatToStringFits(n / 10, width - 1);
    }
  }

  /** A string of `k` digits has a value below `10^k`. */
  lemma {:induction false} DigitsValueBound(s: string)
    requires AllDigits(s)
    ensures DigitsValue(s) < Pow10(|s|)
    decreases |s|
  {
    if s != [] {
      DigitsValueBound(s[..|s| - 1]);
    }
  }

  /** `NatToString(n)` has at least `k` characters when `10^(k-1) <= n`. */
  lemma {:induction false} NatToStringMinLength(n: nat, k: nat)
    requires k >= 1 && Pow10(k - 1) <= n
    ensures |NatToString(n)| >= k
    decreases k
  {
    if k >= 2 {
      assert n >= 10;
      NatToStringMinLength(n / 10, k - 1);
    }
  }

  /** Leading zeros do not change the value of a digit string. */
  lemma {:induction false} LeadingZeros(zeros: string, digits: string)
    requires forall i :: 0 <= i < |zeros| ==> zeros[i] == '0'
    requires AllDigits(digits)
    ensures AllDigits(zeros + digits)
    ensures DigitsValue(zeros + digits) == DigitsValue(digits)
    decreases |digits|
  {
    var s := zeros + digits;
    if digits == [] {
      assert s == zeros;
      AllZeros(zeros);
    } else {
      assert s[..|s| - 1] == zeros + digits[..|digits| - 1];
      LeadingZeros(zeros, digits[..|digits| - 1]);
    }
  }

  lemma {:induction false} AllZeros(zeros: string)
    requires forall i :: 0 <= i < |zeros| ==> zeros[i] == '0'
    ensures AllDigits(zeros) && DigitsValue(zeros) == 0
    decreases |zeros|
  {
    if zeros != [] {
      AllZeros(zeros[..|zeros| - 1]);
    }
  }

  // ---------------------------------------------------------------------------
  // Strings
  // ---------------------------------------------------------------------------

  /** `s.startsWith(prefix)`. */
  predicate StartsWith(s: string, prefix: string)
  {
    |prefix| <= |s| && s[..|prefix|] == prefix
  }

  /** `pattern` occurs in `s` at index `i`. */
  predicate OccursAt(s: string, pattern: string, i: int)
  {
    0 <= i && i + |pattern| <= |s| && s[i..i + |pattern|] == pattern
  }

  /** `s.indexOf(pattern)`: the first index at which `pattern` occurs, or -1. */
  function IndexOf(s: string, pattern: string): (r: int)
    ensures -1 <= r <= |s|
    ensures r >= 0 ==> OccursAt(s, pattern, r)
    ensures r >= 0 ==> forall j :: 0 <= j < r ==> !OccursAt(s, pattern, j)
    ensures r == -1 ==> forall j :: 0 <= j <= |s| ==> !OccursAt(s, pattern, j)
  {
    IndexOfFrom(s, pattern, 0)
  }

  function IndexOfFrom(s: string, pattern: string, from: nat): (r: int)
    requires from <= |s|
    ensures r == -1 || from <= r <= |s|
    ensures r >= 0 ==> OccursAt(s, pattern, r)
    ensures r >= 0 ==> forall j :: from <= j < r ==> !OccursAt(s, pattern, j)
    ensures r == -1 ==> forall j :: from <= j <= |s| ==> !OccursAt(s, pattern, j)
    decreases |s| - from
  {
    if OccursAt(s, pattern, from) then from
    else if from == |s| then -1
    else IndexOfFrom(s, pattern, from + 1)
  }

  /** The empty pattern occurs at index 0 of every string. */
  lemma IndexOfEmpty(s: string)
    ensures IndexOf(s, "") == 0
  {
    assert OccursAt(s, "", 0);
  }

  /** ASCII upper-case to lower-case; other characters are unchanged. */
  function ToLowerAscii(c: char): (d: char)
    ensures 'A' <= c <= 'Z' ==> d as int == c as int + 32
    ensures !('A' <= c <= 'Z') ==> d == c
  {
    if 'A' <= c <= 'Z' then (c as int + 32) as char else c
  }

  /** `a.equalsIgnoreCase(b)`, with case folding restricted to ASCII letters. */
  predicate EqualsIgnoreCase(a: string, b: string)
  {
    |a| == |b| && forall i :: 0 <= i < |a| ==> ToLowerAscii(a[i]) == ToLowerAscii(b[i])
  }
}
