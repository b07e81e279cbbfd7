/** JavaScript's `BigInt(string)` on the decimal strings the publish response carries
    for its gas and fee fields. Integers are unbounded here, as `BigInt`s are. */
module BigInt {
  import opened Lens

  predicate IsDigit(c: char)
  {
    '0' <= c <= '9'
  }

  predicate IsDecimal(s: string)
  {
    forall i :: 0 <= i < |s| ==> IsDigit(s[i])
  }

  function DigitValue(c: char): (d: nat)
    requires IsDigit(c)
    ensures d < 10
  {
    c as int - '0' as int
  }

  function DigitChar(d: nat): (c: char)
    requires d < 10
    ensures IsDigit(c) && DigitValue(c) == d
  {
    ('0' as int + d) as char
  }

  /** The number a string of decimal digits denotes, most significant digit first;
      the empty string denotes 0, as `BigInt('')` does. */
  function DecimalValue(s: string): nat
    requires IsDecimal(s)
  {
    if s == [] then 0 else 10 * DecimalValue(s[..|s| - 1]) + DigitValue(s[|s| - 1])
  }

  /** The canonical decimal spelling of `n`: no leading zeros, "0" for zero. */
  function DecimalString(n: nat): (s: string)
    ensures IsDecimal(s) && |s| >= 1
    ensures |s| > 1 ==> s[0] != '0'
  {
    if n < 10 then [DigitChar(n)] else DecimalString(n / 10) + [DigitChar(n % 10)]
  }

  /** Reading back the decimal spelling of any number gives the number, however large. */
  lemma {:induction false} DecimalRoundTrip(n: nat)
    ensures DecimalValue(DecimalString(n)) == n
  {
    if n >= 10 {
      var s := DecimalString(n);
      assert s[..|s| - 1] == DecimalString(n / 10);
      DecimalRoundTrip(n / 10);
    }
  }

  /** Leading zeros do not change the value. */
  lemma {:induction false} LeadingZero(s: string)
    requires IsDecimal(s)
    ensures IsDecimal("0" + s) && DecimalValue("0" + s) == DecimalValue(s)
  {
    if s != [] {
      var t := "0" + s;
      assert t[..|t| - 1] == "0" + s[..|s| - 1];
      LeadingZero(s[..|s| - 1]);
    }
  }

  /** `BigInt(s)`: the exact value of a decimal string, or the `SyntaxError` it throws. */
  function BigIntOf(s: string): (r: Attempt<nat>)
    ensures r.Done? <==> IsDecimal(s)
    ensures r.Done? ==> r.value == DecimalValue(s)
    ensures r.Threw? ==> r.exception == Error("Cannot convert " + s + " to a BigInt")
  {
    if IsDecimal(s) then Done(DecimalValue(s)) else Threw(Error("Cannot convert " + s + " to a BigInt"))
  }

  /** No value is lost on the way to the signer: every number survives its decimal spelling. */
  lemma {:induction false} BigIntExact(n: nat)
    ensures BigIntOf(DecimalString(n)) == Done(n)
  {
    DecimalRoundTrip(n);
  }
}
