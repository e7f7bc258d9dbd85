/** Decimal printing, as ulong.ToString and StringBuilder.Append do it, and its inverse. */
module Numerals {
  import opened WideText

  predicate IsDigit(c: WChar) { 48 <= c <= 57 }

  predicate AllDigits(s: WString) {
    forall i :: 0 <= i < |s| ==> IsDigit(s[i])
  }

  function Digit(d: nat): (c: WChar)
    requires d < 10
    ensures IsDigit(c)
  {
    48 + d as WChar
  }

  function Decimal(n: nat): (s: WString)
    ensures s != [] && AllDigits(s)
  {
    if n < 10 then [Digit(n)] else Decimal(n / 10) + [Digit(n % 10)]
  }

  function Value(s: WString): nat
    requires AllDigits(s)
  {
    if s == [] then 0 else 10 * Value(s[..|s| - 1]) + (s[|s| - 1] as int - 48)
  }

  lemma {:induction false} ValueOfDecimal(n: nat)
    ensures Value(Decimal(n)) == n
  {
    if n >= 10 {
      ValueOfDecimal(n / 10);
      assert Decimal(n)[..|Decimal(n)| - 1] == Decimal(n / 10);
    } else {
      assert Decimal(n)[..0] == [];
    }
  }

  lemma DecimalInjective(m: nat, n: nat)
    requires Decimal(m) == Decimal(n)
    ensures m == n
  {
    ValueOfDecimal(m);
    ValueOfDecimal(n);
  }

  /** The longest run of digits at the end. */
  function TrailingDigits(s: WString): WString {
    if s == [] || !IsDigit(s[|s| - 1]) then [] else TrailingDigits(s[..|s| - 1]) + [s[|s| - 1]]
  }

  lemma {:induction false} TrailingDigitsAfter(a: WString, digits: WString)
    requires AllDigits(digits) && (a == [] || !IsDigit(a[|a| - 1]))
    ensures TrailingDigits(a + digits) == digits
  {
    if digits == [] {
      assert a + digits == a;
    } else {
      var s := a + digits;
      assert s[..|s| - 1] == a + digits[..|digits| - 1];
      TrailingDigitsAfter(a, digits[..|digits| - 1]);
    }
  }

  /** A number and the text after it can be told apart when that text does not start with a digit. */
  function LeadingDigits(s: WString): (d: WString)
    ensures AllDigits(d) && d <= s
  {
    if s == [] || !IsDigit(s[0]) then [] else [s[0]] + LeadingDigits(s[1..])
  }

  lemma {:induction false} LeadingDigitsBefore(digits: WString, rest: WString)
    requires AllDigits(digits) && (rest == [] || !IsDigit(rest[0]))
    ensures LeadingDigits(digits + rest) == digits
  {
    if digits == [] {
      assert digits + rest == rest;
    } else {
      assert (digits + rest)[1..] == digits[1..] + rest;
      LeadingDigitsBefore(digits[1..], rest);
    }
  }
}
