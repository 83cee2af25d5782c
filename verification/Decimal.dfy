/** The decimal numerals Python's `str(int)` prints, and the numerals `(?:0|[1-9][0-9]*)` accepts. */
module Decimal {

  predicate IsDigit(c: char) { '0' <= c <= '9' }

  function DigitValue(c: char): (v: nat)
    requires IsDigit(c)
    ensures v < 10
  {
    c as int - '0' as int
  }

  function DigitChar(v: nat): (c: char)
    requires v < 10
    ensures IsDigit(c) && DigitValue(c) == v
  {
    ('0' as int + v) as char
  }

  predicate AllDigits(s: string) { forall i :: 0 <= i < |s| ==> IsDigit(s[i]) }

  /** Non-empty, only digits, and no leading zero unless the numeral is "0" itself. */
  predicate IsNumeral(s: string) {
    && |s| > 0
    && AllDigits(s)
    && (s[0] == '0' ==> |s| == 1)
  }

  function Print(n: nat): (s: string)
    ensures IsNumeral(s)
    ensures n > 0 ==> s[0] != '0'
  {
    if n < 10 then [DigitChar(n)] else Print(n / 10) + [DigitChar(n % 10)]
  }

  function Parse(s: string): nat
    requires AllDigits(s)
  {
    if s == "" then 0 else 10 * Parse(s[..|s| - 1]) + DigitValue(s[|s| - 1])
  }

  lemma {:induction false} ParsePrint(n: nat)
    ensures Parse(Print(n)) == n
  {
    var s := Print(n);
    if n < 10 {
      assert s[..0] == "";
    } else {
      assert s[..|s| - 1] == Print(n / 10);
      ParsePrint(n / 10);
    }
  }

  lemma {:induction false} PrintParse(s: string)
    requires IsNumeral(s)
    ensures Print(Parse(s)) == s
    ensures s[0] != '0' ==> Parse(s) > 0
  {
    var front := s[..|s| - 1];
    assert s == front + [s[|s| - 1]];
    if front == "" {
      assert Parse(s) == DigitValue(s[0]);
    } else {
      assert front[0] == s[0];
      PrintParse(front);
      var n := 10 * Parse(front) + DigitValue(s[|s| - 1]);
      assert n / 10 == Parse(front) && n % 10 == DigitValue(s[|s| - 1]);
    }
  }

  lemma PrintInjective(m: nat, n: nat)
    requires Print(m) == Print(n)
    ensures m == n
  {
    ParsePrint(m);
    ParsePrint(n);
  }
}
