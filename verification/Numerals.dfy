/** Decimal numbers as Rust prints an integer and parses an `i64`. */
module Numerals {
  import opened Options

  const I64_MAX: int := 0x7fff_ffff_ffff_ffff
  const I64_MIN: int := -0x8000_0000_0000_0000

  predicate IsDigit(c: char) { '0' <= c <= '9' }

  predicate AllDigits(s: string) { forall c :: c in s ==> IsDigit(c) }

  function DigitChar(d: nat): (c: char)
    requires d < 10
    ensures IsDigit(c) && DigitValue(c) == d
  {
    ('0' as int + d) as char
  }

  function DigitValue(c: char): (d: nat)
    requires IsDigit(c)
    ensures d < 10
  {
    c as int - '0' as int
  }

  /** The digits among the characters somebody typed. */
  function Digits(typed: string): string {
    if typed == "" then "" else (if IsDigit(typed[0]) then [typed[0]] else "") + Digits(typed[1..])
  }

  /** `format!("{}", n)` for a non-negative number. */
  function ShowNat(n: nat): (s: string)
    ensures s != "" && AllDigits(s)
  {
    if n < 10 then [DigitChar(n)] else ShowNat(n / 10) + [DigitChar(n % 10)]
  }

  /** `format!("{}", n)` for any number. */
  function ShowInt(n: int): (s: string)
    ensures s != ""
  {
    if n < 0 then "-" + ShowNat(-n) else ShowNat(n)
  }

  function DigitsValue(s: string): nat
    requires AllDigits(s)
  {
    if s == "" then 0
    else 10 * DigitsValue(s[..|s| - 1]) + DigitValue(s[|s| - 1])
  }

  /** `str::parse::<i64>`: an optional sign, at least one digit, in range. */
  function ParseI64(s: string): Option<int> {
    var negative := |s| > 0 && s[0] == '-';
    var digits := if |s| > 0 && (s[0] == '-' || s[0] == '+') then s[1..] else s;
    if digits == "" || !AllDigits(digits) then None
    else
      var magnitude: int := DigitsValue(digits);
      var value := if negative then -magnitude else magnitude;
      if I64_MIN <= value <= I64_MAX then Some(value) else None
  }

  lemma {:induction false} DigitsRoundTrip(n: nat)
    ensures DigitsValue(ShowNat(n)) == n
  {
    if n >= 10 {
      DigitsRoundTrip(n / 10);
      assert (ShowNat(n / 10) + [DigitChar(n % 10)])[..|ShowNat(n / 10)|] == ShowNat(n / 10);
    } else {
      assert [DigitChar(n)][..0] == "";
    }
  }

  lemma SignsAreNoDigits(digits: string)
    requires digits != "" && AllDigits(digits)
    ensures digits[0] != '-' && digits[0] != '+'
  {
    assert digits[0] in digits;
  }

  /** Every `i64` that is printed parses back to itself. */
  lemma ParseUndoesShow(n: int)
    requires I64_MIN <= n <= I64_MAX
    ensures ParseI64(ShowInt(n)) == Some(n)
  {
    hide ShowNat, DigitsValue, IsDigit;
    var digits := ShowNat(if n < 0 then -n else n);
    DigitsRoundTrip(if n < 0 then -n else n);
    SignsAreNoDigits(digits);
    assert ("-" + digits)[1..] == digits;
  }

  lemma ShowNatInjective(a: nat, b: nat)
    requires ShowNat(a) == ShowNat(b)
    ensures a == b
  {
    DigitsRoundTrip(a);
    DigitsRoundTrip(b);
  }
}
