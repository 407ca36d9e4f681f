/**
 * A model of the decimal parse the round-count input goes through
 * (`strconv.Atoi` at bot/handler.go:85). It is an assumption about Go's
 * library: an optional '+' or '-' followed by one or more ASCII digits is
 * accepted, anything else is an error, and the int64 range is not checked.
 * `Itoa` renders an integer in the same syntax and is a right inverse of the
 * parse (`AtoiOfItoa`); the converse holds only for canonical digit text
 * (`DigitsOfDigitsValue`), since "7", "07" and "+7" all parse to 7.
 */
module Atoi {
  import opened Options

  predicate IsDigit(c: char) { '0' <= c <= '9' }

  predicate IsDigits(s: string) { forall i | 0 <= i < |s| :: IsDigit(s[i]) }

  predicate IsSign(c: char) { c == '+' || c == '-' }

  /** The text after an optional leading sign. */
  function Unsigned(s: string): string
  {
    if |s| > 0 && IsSign(s[0]) then s[1..] else s
  }

  /** The syntax the parse accepts: an optional sign, then at least one digit. */
  predicate IsDecimal(s: string)
  {
    |Unsigned(s)| > 0 && IsDigits(Unsigned(s))
  }

  function DigitValue(c: char): (d: nat)
    requires IsDigit(c)
    ensures d < 10
  {
    c as int - '0' as int
  }

  function DigitChar(d: nat): (c: char)
    requires d < 10
    ensures IsDigit(c) && DigitValue(c) == d
  {
    ('0' as int + d) as char
  }

  /** The value of a string of digits, most significant first. */
  function DigitsValue(s: string): nat
    requires IsDigits(s)
  {
    if s == [] then 0 else 10 * DigitsValue(s[..|s| - 1]) + DigitValue(s[|s| - 1])
  }

  /** Parses `s`; the result is present exactly when `s` has the accepted syntax. */
  function Atoi(s: string): (r: Option<int>)
    ensures r.Some? <==> IsDecimal(s)
    ensures r.Some? && r.value < 0 ==> s[0] == '-'
    ensures r.Some? && s[0] != '-' ==> r.value == DigitsValue(Unsigned(s))
    ensures r.Some? && s[0] == '-' ==> r.value == -(DigitsValue(Unsigned(s)) as int)
  {
    var body := Unsigned(s);
    if |body| == 0 || !IsDigits(body) then None
    else
      var magnitude: int := DigitsValue(body);
      if s[0] == '-' then Some(-magnitude) else Some(magnitude)
  }

  /** The canonical decimal digits of `n`: no sign and no leading zero. */
  function Digits(n: nat): (s: string)
    ensures |s| > 0 && IsDigits(s)
    ensures |s| > 1 ==> s[0] != '0'
  {
    if n < 10 then [DigitChar(n)] else Digits(n / 10) + [DigitChar(n % 10)]
  }

  /** Renders `n` in decimal, with a '-' for a negative number. */
  function Itoa(n: int): string
  {
    if n < 0 then "-" + Digits(-n) else Digits(n)
  }

  lemma {:induction false} DigitsValueOfDigits(n: nat)
    ensures DigitsValue(Digits(n)) == n
  {
    if n >= 10 {
      var s := Digits(n);
      assert s[..|s| - 1] == Digits(n / 10);
      DigitsValueOfDigits(n / 10);
    }
  }

  /** Round trip: every integer that is rendered in decimal parses back to itself. */
  lemma AtoiOfItoa(n: int)
    ensures Atoi(Itoa(n)) == Some(n)
  {
    if n < 0 {
      assert Unsigned(Itoa(n)) == Digits(-n);
      DigitsValueOfDigits(-n);
    } else {
      assert Unsigned(Itoa(n)) == Digits(n);
      DigitsValueOfDigits(n);
    }
  }

  /** The other direction: decimal text without sign or leading zero is what `Itoa` gives for its value. */
  lemma {:induction false} DigitsOfDigitsValue(s: string)
    requires IsDigits(s) && |s| > 0
    requires |s| > 1 ==> s[0] != '0'
    ensures Digits(DigitsValue(s)) == s
  {
    if |s| > 1 {
      var init := s[..|s| - 1];
      assert init[0] == s[0];
      DigitsOfDigitsValue(init);
      LeadingDigitBound(init);
      assert DigitsValue(s) / 10 == DigitsValue(init);
      assert DigitsValue(s) % 10 == DigitValue(s[|s| - 1]);
    }
  }

  /** A digit string that does not start with '0' is worth at least 1. */
  lemma {:induction false} LeadingDigitBound(s: string)
    requires IsDigits(s) && |s| > 0 && s[0] != '0'
    ensures DigitsValue(s) >= 1
  {
    if |s| > 1 {
      var init := s[..|s| - 1];
      assert init[0] == s[0];
      LeadingDigitBound(init);
    }
  }
}
