/** Decimal text of 64-bit integers: `strconv.FormatInt`, `%d` and `strconv.ParseInt(_, 10, 64)`. */
module Decimal {
  import opened Contract

  const INT64_MIN: int := -0x8000_0000_0000_0000
  const INT64_MAX: int := 0x7fff_ffff_ffff_ffff

  predicate IsDigit(c: char) {
    '0' <= c <= '9'
  }

  function Digit(d: nat): char
    requires d < 10
  {
    '0' + d as char
  }

  function DigitOf(c: char): nat
    requires IsDigit(c)
  {
    c as int - '0' as int
  }

  function FormatNat(n: nat): (s: string)
    ensures |s| >= 1 && forall c | c in s :: IsDigit(c)
  {
    if n < 10 then [Digit(n)] else FormatNat(n / 10) + [Digit(n % 10)]
  }

  function FormatInt(n: int): string {
    if n < 0 then "-" + FormatNat(-n) else FormatNat(n)
  }

  function DigitsValue(s: string): nat
    requires forall c | c in s :: IsDigit(c)
  {
    if s == "" then 0
    else
      assert s[|s| - 1] in s;
      10 * DigitsValue(s[..|s| - 1]) + DigitOf(s[|s| - 1])
  }

  /** An optional sign and at least one digit, refused outside the 64-bit range. */
  function ParseInt(s: string): Option<int> {
    var negative := s != "" && s[0] == '-';
    var digits := if s != "" && (s[0] == '-' || s[0] == '+') then s[1..] else s;
    if digits == "" || exists c :: c in digits && !IsDigit(c) then None
    else
      var magnitude: int := DigitsValue(digits);
      var n := if negative then -magnitude else magnitude;
      if INT64_MIN <= n <= INT64_MAX then Some(n) else None
  }

  lemma {:induction false} FormatNatValue(n: nat)
    ensures DigitsValue(FormatNat(n)) == n
  {
    var s := FormatNat(n);
    if n < 10 {
      assert s[..|s| - 1] == "";
    } else {
      FormatNatValue(n / 10);
      assert s[..|s| - 1] == FormatNat(n / 10);
    }
  }

  /** Reading back printed text gives the number, exactly for the numbers that fit 64 bits. */
  lemma ParseFormat(n: int)
    ensures ParseInt(FormatInt(n)) == (if INT64_MIN <= n <= INT64_MAX then Some(n) else None)
  {
    var s := FormatInt(n);
    if n < 0 {
      FormatNatValue(-n);
      assert s[1..] == FormatNat(-n);
    } else {
      FormatNatValue(n);
      assert s[0] in s;
    }
  }

  /** Text that reads as a number holds nothing but digits behind a sign. */
  lemma ParsedChars(s: string)
    requires ParseInt(s).Some?
    ensures forall c | c in s :: IsDigit(c) || c == '-' || c == '+'
  {
    var digits := if s[0] == '-' || s[0] == '+' then s[1..] else s;
    assert forall c | c in s :: c == s[0] || c in digits;
  }

  /** Printed numbers contain digits and a sign only, so no separator can hide in them. */
  lemma FormatIntChars(n: int)
    ensures FormatInt(n) != ""
    ensures forall c | c in FormatInt(n) :: IsDigit(c) || c == '-'
  {
  }
}
