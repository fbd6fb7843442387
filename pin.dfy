/**
 * `generatePin` (routes/myRouter.js and routes/apiRouter.js define the same
 * function): `Math.floor(100000 + Math.random() * 900000).toString()`.
 * The random draw is a parameter in [0, 1); JavaScript's double rounding is
 * not modelled, the arithmetic is exact.
 */
module Pin {
  const Low: int := 100000
  const High: int := 999999

  /** A value `Math.random()` can return. */
  type Draw = r: real | 0.0 <= r < 1.0

  /** The integer `Math.floor(100000 + random * 900000)`. */
  function PinNumber(random: Draw): (n: int)
    ensures Low <= n <= High
  {
    (100000.0 + random * 900000.0).Floor
  }

  /** Every integer of the range is the PIN of some draw, so the range is exactly [Low, High]. */
  lemma PinNumberReaches(n: int)
    requires Low <= n <= High
    ensures 0.0 <= (n - Low) as real / 900000.0 < 1.0
    ensures PinNumber((n - Low) as real / 900000.0) == n
  {
  }

  function Digit(d: nat): char
    requires d < 10
  {
    ('0' as int + d) as char
  }

  predicate IsDigits(s: string)
  {
    forall i :: 0 <= i < |s| ==> '0' <= s[i] <= '9'
  }

  /** `Number.prototype.toString()` on a non-negative integer: its decimal digits. */
  function DecimalString(n: nat): string
  {
    if n < 10 then [Digit(n)] else DecimalString(n / 10) + [Digit(n % 10)]
  }

  function DigitValue(c: char): nat
    requires '0' <= c <= '9'
  {
    c as int - '0' as int
  }

  /** The value of a string of decimal digits, the partner of DecimalString. */
  function ParseDecimal(s: string): nat
    requires IsDigits(s)
  {
    if s == [] then 0 else 10 * ParseDecimal(s[..|s| - 1]) + DigitValue(s[|s| - 1])
  }

  function Pow10(k: nat): nat
  {
    if k == 0 then 1 else 10 * Pow10(k - 1)
  }

  lemma {:induction false} DecimalStringDigits(n: nat)
    ensures IsDigits(DecimalString(n))
  {
    if n >= 10 {
      DecimalStringDigits(n / 10);
    }
  }

  /** toString and parsing are inverse: the PIN string carries exactly the PIN number. */
  lemma {:induction false} ParseDecimalString(n: nat)
    ensures IsDigits(DecimalString(n))
    ensures ParseDecimal(DecimalString(n)) == n
  {
    DecimalStringDigits(n);
    if n >= 10 {
      ParseDecimalString(n / 10);
      var s := DecimalString(n);
      assert s[..|s| - 1] == DecimalString(n / 10);
    }
  }

  /** A number with k digits is rendered as k characters. */
  lemma {:induction false} DecimalLength(n: nat, k: nat)
    requires 1 <= k && Pow10(k - 1) <= n < Pow10(k)
    ensures |DecimalString(n)| == k
  {
    if n >= 10 {
      assert k >= 2;
      DecimalLength(n / 10, k - 1);
    }
  }

  /** Two PINs are equal as strings exactly when they are equal as numbers. */
  lemma DecimalStringInjective(a: nat, b: nat)
    ensures DecimalString(a) == DecimalString(b) <==> a == b
  {
    ParseDecimalString(a);
    ParseDecimalString(b);
  }

  /** A well-formed PIN: six decimal digits, the first of them not zero. */
  predicate IsSixDigitPin(s: string)
  {
    |s| == 6 && IsDigits(s) && s[0] != '0'
  }

  /** `generatePin()`: the six-digit decimal string of a number in [Low, High]. */
  function GeneratePin(random: Draw): (pin: string)
    ensures IsSixDigitPin(pin)
    ensures Low <= ParseDecimal(pin) <= High
  {
    var n := PinNumber(random);
    assert Pow10(5) == 100000 && Pow10(6) == 1000000 by {
      assert Pow10(1) == 10 && Pow10(2) == 100 && Pow10(3) == 1000 && Pow10(4) == 10000;
    }
    DecimalLength(n, 6);
    ParseDecimalString(n);
    LeadingDigitNotZero(n);
    DecimalString(n)
  }

  lemma {:induction false} LeadingDigitNotZero(n: nat)
    requires n >= 1
    ensures DecimalString(n)[0] != '0'
  {
    if n >= 10 {
      LeadingDigitNotZero(n / 10);
    }
  }
}
