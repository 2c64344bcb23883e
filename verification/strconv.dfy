/**
 * The two Go number conversions the identifier allocator relies on:
 * `strconv.Atoi` (text to `int`, which is 64 bits wide here) and `%d` of a
 * `uint64` (number to text), together with the `uint64` wrap-around of the
 * conversion `uint64(number)` and of `atomic.Uint64.Add`.
 */
module Strconv {
  import opened Errors

  const MinInt64: int := -0x8000_0000_0000_0000
  const MaxInt64: int := 0x7FFF_FFFF_FFFF_FFFF
  const Uint64Modulus: int := 0x1_0000_0000_0000_0000

  /** Values of Go's `uint64`. */
  type Uint64 = x: int | 0 <= x < Uint64Modulus

  predicate IsDigit(c: char) { '0' <= c <= '9' }

  predicate AllDigits(s: string) { forall i :: 0 <= i < |s| ==> IsDigit(s[i]) }

  function DigitChar(d: nat): (c: char)
    requires d < 10
    ensures IsDigit(c) && c as int - '0' as int == d
  {
    ('0' as int + d) as char
  }

  /** The value of a string of decimal digits, most significant first (leading zeros allowed). */
  function DigitsValue(s: string): nat
    requires AllDigits(s)
    decreases |s|
  {
    if s == [] then 0 else DigitsValue(s[..|s| - 1]) * 10 + (s[|s| - 1] as int - '0' as int)
  }

  /**
   * `strconv.Atoi(s)`: an optional `+` or `-`, then one or more ASCII digits,
   * and a value that fits in a 64-bit `int`; anything else is an error (None).
   */
  function Atoi(s: string): (r: Option<int>)
    ensures r.Some? ==> MinInt64 <= r.value <= MaxInt64
    ensures r.Some? && |s| > 0 && IsDigit(s[0]) ==> AllDigits(s) && r.value == DigitsValue(s)
    ensures s == [] ==> r.None?
  {
    var signed := |s| > 0 && (s[0] == '+' || s[0] == '-');
    var digits := if signed then s[1..] else s;
    if |digits| == 0 || !AllDigits(digits) then None
    else
      var magnitude: int := DigitsValue(digits);
      var v := if signed && s[0] == '-' then -magnitude else magnitude;
      if MinInt64 <= v <= MaxInt64 then Some(v) else None
  }

  /** `fmt.Sprintf("%d", n)` for a non-negative n: no sign, no leading zeros. */
  function FormatDecimal(n: nat): string
    decreases n
  {
    if n < 10 then [DigitChar(n)] else FormatDecimal(n / 10) + [DigitChar(n % 10)]
  }

  /** Reading back what `%d` printed gives the number again. */
  lemma {:induction false} FormatDecimalRoundTrip(n: nat)
    ensures |FormatDecimal(n)| > 0
    ensures AllDigits(FormatDecimal(n)) && DigitsValue(FormatDecimal(n)) == n
    decreases n
  {
    var s := FormatDecimal(n);
    if n < 10 {
      assert s == [DigitChar(n)];
      assert s[..0] == [];
    } else {
      var prefix := FormatDecimal(n / 10);
      FormatDecimalRoundTrip(n / 10);
      assert s == prefix + [DigitChar(n % 10)];
      assert s[..|s| - 1] == prefix;
      assert forall i :: 0 <= i < |s| ==> IsDigit(s[i]) by {
        forall i | 0 <= i < |s| ensures IsDigit(s[i]) {
          if i < |prefix| { assert s[i] == prefix[i]; }
        }
      }
    }
  }

  /** `strconv.Atoi` accepts every `%d` rendering of a number that fits in an `int`. */
  lemma AtoiOfFormatDecimal(n: nat)
    requires n <= MaxInt64
    ensures Atoi(FormatDecimal(n)) == Some(n)
  {
    FormatDecimalRoundTrip(n);
    var s := FormatDecimal(n);
    assert IsDigit(s[0]);
  }

  /** Distinct numbers print differently. */
  lemma FormatDecimalInjective(a: nat, b: nat)
    ensures FormatDecimal(a) == FormatDecimal(b) ==> a == b
  {
    FormatDecimalRoundTrip(a);
    FormatDecimalRoundTrip(b);
  }

  /** `uint64(n)` for an `int` n: two's-complement reinterpretation of a negative value. */
  function ToUint64(n: int): (r: Uint64)
    requires MinInt64 <= n <= MaxInt64
    ensures n >= 0 ==> r == n
    ensures n < 0 ==> r >= 0x8000_0000_0000_0000 && r - Uint64Modulus == n
  {
    if n >= 0 then n else n + Uint64Modulus
  }

  /** `Add(1)` on an `atomic.Uint64`: wraps from the largest value to 0. */
  function Increment(x: Uint64): (r: Uint64)
    ensures x < Uint64Modulus - 1 ==> r == x + 1
    ensures x == Uint64Modulus - 1 ==> r == 0
  {
    (x + 1) % Uint64Modulus
  }
}
