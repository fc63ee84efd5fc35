/** Java `int` values and `Integer.parseInt` on the digit strings the diagnostic
    patterns capture. */
module Integers {
  import opened Wrappers
  import opened Text

  /** `Integer.MAX_VALUE`. */
  const IntMax: int := 0x7fff_ffff

  /** Java's 32-bit `int`. */
  type Int32 = x: int | -0x8000_0000 <= x <= 0x7fff_ffff

  function DigitValue(c: char): nat
    requires In(c, Digit)
  {
    c as int - '0' as int
  }

  function DigitChar(d: nat): (c: char)
    requires d < 10
    ensures In(c, Digit) && DigitValue(c) == d
  {
    ('0' as int + d) as char
  }

  /** The number a string of decimal digits denotes, most significant digit first. */
  function DigitsValue(s: string): nat
    requires AllIn(s, Digit)
  {
    if |s| == 0 then 0 else DigitsValue(s[..|s| - 1]) * 10 + DigitValue(s[|s| - 1])
  }

  /** The message of the NumberFormatException `Integer.parseInt(s)` throws. */
  function NumberFormatMessage(s: string): string {
    "For input string: \"" + s + "\""
  }

  /** `Integer.parseInt(s)` for a nonempty string of ASCII digits (all a `\d+`
      group can hold): the value when it fits in an `int`, otherwise the
      exception's message. */
  function ParseInt(s: string): (r: Result<Int32, string>)
    requires |s| > 0 && AllIn(s, Digit)
    ensures r.Success? <==> DigitsValue(s) <= IntMax
    ensures r.Success? ==> 0 <= r.value && r.value as int == DigitsValue(s)
    ensures r.Failure? ==> r.error == NumberFormatMessage(s)
  {
    var v := DigitsValue(s);
    if v <= IntMax then Success(v) else Failure(NumberFormatMessage(s))
  }

  /** Decimal rendering of a natural number, without leading zeros. */
  function Decimal(n: nat): (s: string)
    ensures |s| > 0 && AllIn(s, Digit)
  {
    if n < 10 then [DigitChar(n)] else Decimal(n / 10) + [DigitChar(n % 10)]
  }

  /** Reading back a rendered number gives the number. */
  lemma {:induction false} DecimalValue(n: nat)
    ensures DigitsValue(Decimal(n)) == n
  {
    if n >= 10 {
      var s := Decimal(n);
      assert s[..|s| - 1] == Decimal(n / 10);
      DecimalValue(n / 10);
    }
  }

  /** `Integer.parseInt` inverts decimal rendering exactly on the `int` range and
      throws above it. */
  lemma ParseDecimal(n: nat)
    ensures n <= IntMax ==> ParseInt(Decimal(n)) == Success(n)
    ensures n > IntMax ==> ParseInt(Decimal(n)) == Failure(NumberFormatMessage(Decimal(n)))
  {
    DecimalValue(n);
  }

  /** Leading zeros do not change the value a digit string denotes. */
  lemma {:induction false} LeadingZeroIgnored(s: string)
    requires AllIn(s, Digit)
    ensures DigitsValue(['0'] + s) == DigitsValue(s)
  {
    if |s| > 0 {
      var z := ['0'] + s;
      assert z[..|z| - 1] == ['0'] + s[..|s| - 1];
      LeadingZeroIgnored(s[..|s| - 1]);
    }
  }
}
