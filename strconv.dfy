/**
 * `strconv.Atoi` as the listing handler uses it to read `page`: an optional
 * sign followed by one or more decimal digits, rejected when the value does
 * not fit a 64-bit `int`.
 */
module Strconv {
  import opened Wrappers

  const MinInt: int := -0x8000_0000_0000_0000
  const MaxInt: int := 0x7FFF_FFFF_FFFF_FFFF

  predicate IsDigit(c: char)
  {
    '0' <= c <= '9'
  }

  predicate AllDigits(s: string)
  {
    forall i :: 0 <= i < |s| ==> IsDigit(s[i])
  }

  /** The number a run of decimal digits denotes, most significant digit first. */
  function DigitsValue(s: string): (n: nat)
    requires AllDigits(s)
  {
    if s == [] then 0
    else DigitsValue(s[..|s| - 1]) * 10 + (s[|s| - 1] - '0') as int
  }

  /** The decimal digits of `n` without leading zeros (the string `strconv.Itoa` gives). */
  function Decimal(n: nat): (s: string)
    ensures |s| >= 1 && AllDigits(s)
  {
    if n < 10 then [(n + '0' as int) as char]
    else Decimal(n / 10) + [((n % 10) + '0' as int) as char]
  }

  /** Parses a base-10 integer; `None` is the error `strconv.Atoi` returns. */
  function Atoi(s: string): (r: Option<int>)
    ensures r.Some? ==> MinInt <= r.value <= MaxInt
    ensures r.Some? ==> |s| >= 1 && (IsDigit(s[0]) || s[0] == '+' || s[0] == '-')
    ensures r.Some? ==> forall i :: 1 <= i < |s| ==> IsDigit(s[i])
    ensures s == [] || s == "+" || s == "-" ==> r.None?
  {
    var neg := |s| > 0 && s[0] == '-';
    var digits := if |s| > 0 && (s[0] == '-' || s[0] == '+') then s[1..] else s;
    if digits == [] || !AllDigits(digits) then None
    else
      var v: int := if neg then 0 - DigitsValue(digits) as int else DigitsValue(digits);
      if MinInt <= v <= MaxInt then Some(v) else None
  }

  /** Reading back the decimal digits of `n` yields `n`. */
  lemma {:induction false} DigitsValueOfDecimal(n: nat)
    ensures DigitsValue(Decimal(n)) == n
  {
    if n >= 10 {
      DigitsValueOfDecimal(n / 10);
      var s := Decimal(n);
      assert s[..|s| - 1] == Decimal(n / 10);
    }
  }

  /** `Atoi` accepts the decimal form of every non-negative `int` and returns it. */
  lemma AtoiOfDecimal(n: nat)
    requires n <= MaxInt
    ensures Atoi(Decimal(n)) == Some(n)
  {
    DigitsValueOfDecimal(n);
  }

  /** A leading `-` before the decimal form of `n` gives `-n`. */
  lemma AtoiOfNegativeDecimal(n: nat)
    requires n <= MaxInt
    ensures Atoi("-" + Decimal(n)) == Some(0 - n as int)
  {
    DigitsValueOfDecimal(n);
    assert ("-" + Decimal(n))[1..] == Decimal(n);
  }

  /** A character other than a digit anywhere after the first position makes `Atoi` fail. */
  lemma AtoiRejectsNonDigit(s: string, i: int)
    requires 1 <= i < |s| && !IsDigit(s[i])
    ensures Atoi(s).None?
  {
  }

  /** A leading zero does not change the value of a run of digits. */
  lemma {:induction false} DigitsValueLeadingZero(s: string)
    requires AllDigits(s)
    ensures AllDigits("0" + s) && DigitsValue("0" + s) == DigitsValue(s)
  {
    if s != [] {
      var t := s[..|s| - 1];
      DigitsValueLeadingZero(t);
      assert ("0" + s)[..|"0" + s| - 1] == "0" + t;
    }
  }

  /** A run of digits in range parses to the number it denotes. */
  lemma AtoiOfDigits(s: string)
    requires |s| >= 1 && AllDigits(s) && DigitsValue(s) <= MaxInt
    ensures Atoi(s) == Some(DigitsValue(s))
  {
    assert IsDigit(s[0]);
  }

  /** A `+` before a run of digits in range changes nothing. */
  lemma AtoiOfPlusDigits(s: string)
    requires |s| >= 1 && AllDigits(s) && DigitsValue(s) <= MaxInt
    ensures Atoi("+" + s) == Some(DigitsValue(s))
  {
    var t := "+" + s;
    assert t[0] == '+' && t[1..] == s;
  }

  /** A `-` before a run of digits gives the negated value, down to the 64-bit minimum; leading zeros do not change the sign. */
  lemma AtoiOfMinusDigits(s: string)
    requires |s| >= 1 && AllDigits(s) && DigitsValue(s) <= MaxInt + 1
    ensures Atoi("-" + s) == Some(0 - DigitsValue(s) as int)
  {
    var t := "-" + s;
    assert t[0] == '-' && t[1..] == s;
  }

  /** A run of digits beyond the 64-bit range is an error, with or without a sign; the parse never saturates. */
  lemma AtoiOutOfRange(s: string)
    requires |s| >= 1 && AllDigits(s) && DigitsValue(s) > MaxInt
    ensures Atoi(s).None?
    ensures Atoi("+" + s).None?
    ensures DigitsValue(s) > MaxInt + 1 ==> Atoi("-" + s).None?
  {
    assert IsDigit(s[0]);
    assert ("+" + s)[1..] == s;
    assert ("-" + s)[1..] == s;
  }

  /** Leading zeros are accepted and do not change the value (a corollary of `AtoiOfDigits` on the padded run). */
  lemma AtoiOfZeroPaddedDigits(s: string)
    requires |s| >= 1 && AllDigits(s) && DigitsValue(s) <= MaxInt
    ensures Atoi("0" + s) == Some(DigitsValue(s))
  {
    DigitsValueLeadingZero(s);
    AtoiOfDigits("0" + s);
  }
}
