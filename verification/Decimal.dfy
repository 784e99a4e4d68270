/** Decimal text of a natural number, as Python's `str` prints it and `int` reads it back. */
module Decimal {
  import opened Wrappers

  predicate IsDigit(c: char) { '0' <= c <= '9' }

  function Value(c: char): nat
    requires IsDigit(c)
  {
    c as int - '0' as int
  }

  function Symbol(d: nat): (c: char)
    requires d < 10
    ensures IsDigit(c) && Value(c) == d
  {
    ('0' as int + d) as char
  }

  function Print(n: nat): (text: string)
    ensures text != [] && forall i :: 0 <= i < |text| ==> IsDigit(text[i])
  {
    if n < 10 then [Symbol(n)] else Print(n / 10) + [Symbol(n % 10)]
  }

  /** Reads a non-empty run of digits; anything else is Python's `ValueError`. */
  function Parse(text: string): Option<nat> {
    if text == [] || !IsDigit(text[|text| - 1]) then None
    else if |text| == 1 then Some(Value(text[0]))
    else
      match Parse(text[..|text| - 1])
      case None => None
      case Some(n) => Some(10 * n + Value(text[|text| - 1]))
  }

  lemma {:induction false} ParseUndoesPrint(n: nat)
    ensures Parse(Print(n)) == Some(n)
  {
    if n >= 10 {
      ParseUndoesPrint(n / 10);
      var text := Print(n);
      assert text[..|text| - 1] == Print(n / 10);
    }
  }

  const DIGITS := "0123456789"

  lemma DigitSymbols(d: nat)
    requires d < 10
    ensures Symbol(d) == DIGITS[d]
  {
  }

  /** The text is the decimal notation: each further digit is one more character at the end. */
  lemma PrintsDigits(n: nat, d: nat)
    requires d < 10
    ensures Print(d) == [DIGITS[d]]
    ensures n > 0 ==> Print(10 * n + d) == Print(n) + [DIGITS[d]]
  {
    DigitSymbols(d);
    if n > 0 { assert (10 * n + d) / 10 == n && (10 * n + d) % 10 == d; }
  }

  /** `int` refuses the empty text and any text with a character that is not a digit. */
  lemma {:induction false} ParsesDigitsOnly(text: string)
    ensures Parse(text).Some? <==> text != "" && forall i :: 0 <= i < |text| ==> text[i] in DIGITS
  {
    if text != "" {
      var n := |text| - 1;
      IsADigit(text[n]);
      if n > 0 { ParsesDigitsOnly(text[..n]); }
      assert forall i :: 0 <= i < n ==> text[..n][i] == text[i];
    }
  }

  lemma IsADigit(c: char)
    ensures IsDigit(c) <==> c in DIGITS
  {
    if IsDigit(c) { assert DIGITS[c as int - '0' as int] == c; }
  }

  lemma PrintIsInjective(m: nat, n: nat)
    requires Print(m) == Print(n)
    ensures m == n
  {
    ParseUndoesPrint(m);
    ParseUndoesPrint(n);
  }
}
