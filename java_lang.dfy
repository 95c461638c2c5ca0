/**
 * The behaviour of the few Java library operations whose results the client puts on the wire:
 * the decimal rendering of a `long` (`String.valueOf(long)`, also used by string concatenation),
 * `java.time.Duration.toMinutes()` and the `(int)` narrowing cast of a `long`.
 * Java integers are modelled as unbounded `int`; where the width matters it is written out.
 */
module JavaLang {
  import opened Wrappers

  predicate IsDigit(c: char) {
    '0' <= c <= '9'
  }

  predicate AllDigits(s: string) {
    forall i :: 0 <= i < |s| ==> IsDigit(s[i])
  }

  function DigitChar(d: nat): (c: char)
    requires d < 10
    ensures IsDigit(c)
  {
    ['0', '1', '2', '3', '4', '5', '6', '7', '8', '9'][d]
  }

  function DigitValue(c: char): (d: nat)
    requires IsDigit(c)
    ensures d < 10
    ensures DigitChar(d) == c
  {
    c as int - '0' as int
  }

  /** The decimal digits of a natural number, most significant first. */
  function NatDigits(n: nat): string
    decreases n
  {
    if n < 10 then [DigitChar(n)] else NatDigits(n / 10) + [DigitChar(n % 10)]
  }

  /** `String.valueOf(long)`: an optional minus sign followed by the digits of the magnitude. */
  function DecimalString(x: int): string {
    if x < 0 then "-" + NatDigits(-x) else NatDigits(x)
  }

  /** Digits only, at least one, and no leading zero unless the number is zero. */
  lemma {:induction false} NatDigitsCanonical(n: nat)
    ensures |NatDigits(n)| >= 1 && AllDigits(NatDigits(n))
    ensures NatDigits(n)[0] == '0' <==> n == 0
    ensures n == 0 ==> NatDigits(n) == "0"
    decreases n
  {
    if n >= 10 {
      NatDigitsCanonical(n / 10);
      var s := NatDigits(n);
      assert s == NatDigits(n / 10) + [DigitChar(n % 10)];
      assert s[0] == NatDigits(n / 10)[0];
    }
  }

  /** The rendering is a minus sign exactly for negative numbers, followed by canonical digits that denote the magnitude. */
  lemma DecimalStringCanonical(x: int)
    ensures |DecimalString(x)| >= 1
    ensures x < 0 <==> DecimalString(x)[0] == '-'
    ensures var digits := if x < 0 then DecimalString(x)[1..] else DecimalString(x);
      && |digits| >= 1 && AllDigits(digits) && (digits[0] == '0' <==> x == 0)
      && DigitsValue(digits) == if x < 0 then -x else x
  {
    var magnitude := if x < 0 then -x else x;
    NatDigitsCanonical(magnitude);
    NatDigitsRoundTrip(magnitude);
    var digits := if x < 0 then DecimalString(x)[1..] else DecimalString(x);
    assert digits == NatDigits(magnitude);
  }

  /** The number a string of decimal digits denotes (the empty string denotes 0). */
  function DigitsValue(s: string): nat
    requires AllDigits(s)
  {
    if s == [] then 0 else DigitsValue(s[..|s| - 1]) * 10 + DigitValue(s[|s| - 1])
  }

  /** Reads an optional `-` followed by ASCII decimal digits; the reference reader of `DecimalString`. */
  function ParseDecimal(s: string): Option<int> {
    if |s| >= 1 && s[0] == '-' then
      if |s| >= 2 && AllDigits(s[1..]) then Some(-(DigitsValue(s[1..]) as int)) else None
    else if |s| >= 1 && AllDigits(s) then Some(DigitsValue(s))
    else None
  }

  lemma {:induction false} NatDigitsRoundTrip(n: nat)
    ensures AllDigits(NatDigits(n))
    ensures DigitsValue(NatDigits(n)) == n
    decreases n
  {
    NatDigitsCanonical(n);
    var s := NatDigits(n);
    if n < 10 {
      assert s[..|s| - 1] == [];
    } else {
      NatDigitsRoundTrip(n / 10);
      assert s[..|s| - 1] == NatDigits(n / 10);
    }
  }

  /** Reading back what `String.valueOf(long)` wrote gives the original number. */
  lemma DecimalRoundTrip(x: int)
    ensures ParseDecimal(DecimalString(x)) == Some(x)
  {
    var magnitude := if x < 0 then -x else x;
    NatDigitsRoundTrip(magnitude);
    NatDigitsCanonical(magnitude);
    if x < 0 {
      var s := DecimalString(x);
      assert s[1..] == NatDigits(magnitude);
      ParseNegative(s);
    } else {
      ParseNonNegative(NatDigits(magnitude));
    }
  }

  lemma ParseNonNegative(digits: string)
    requires |digits| >= 1 && AllDigits(digits)
    ensures ParseDecimal(digits) == Some(DigitsValue(digits))
  {
    assert !IsDigit('-');
    assert digits[0] != '-';
  }

  lemma ParseNegative(s: string)
    requires |s| >= 2 && s[0] == '-' && AllDigits(s[1..])
    ensures ParseDecimal(s) == Some(-(DigitsValue(s[1..]) as int))
  {
  }

  /** Different numbers are rendered as different strings. */
  lemma DecimalStringInjective(x: int, y: int)
    requires DecimalString(x) == DecimalString(y)
    ensures x == y
  {
    DecimalRoundTrip(x);
    DecimalRoundTrip(y);
  }

  /**
   * A `java.time.Duration`, represented by its `seconds` field (the floor of its length in seconds).
   * The nanosecond adjustment is left out: it does not affect the whole-minute count.
   */
  datatype Duration = Duration(seconds: int)

  /** `Duration.toMinutes()`: `seconds / 60` with Java's division, which truncates toward zero. */
  function ToMinutes(d: Duration): (m: int)
    ensures 0 <= d.seconds ==> 0 <= 60 * m <= d.seconds < 60 * m + 60
    ensures d.seconds < 0 ==> 60 * m - 60 < d.seconds <= 60 * m <= 0
  {
    if d.seconds >= 0 then d.seconds / 60 else -((-d.seconds) / 60)
  }

  const IntMin: int := -0x8000_0000
  const IntMax: int := 0x7FFF_FFFF

  /** The `(int)` cast of a `long`: keeps the low 32 bits, read as a two's-complement number. */
  function LongToInt(x: int): (r: int)
    ensures IntMin <= r <= IntMax
    ensures (x - r) % 0x1_0000_0000 == 0
  {
    (x - IntMin) % 0x1_0000_0000 + IntMin
  }

  /** The cast changes nothing for a value that already fits in 32 bits. */
  lemma LongToIntInRange(x: int)
    requires IntMin <= x <= IntMax
    ensures LongToInt(x) == x
  {
  }
}
