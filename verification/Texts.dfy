/** Python's string methods and number conversion, as far as the texts of the control plane need them. */
module Texts {
  import Decimal

  // ---- Characters ------------------------------------------------------------------------------------------------

  /** The characters `str.strip` removes. */
  predicate IsSpace(c: char) {
    || '\U{0009}' <= c <= '\U{000D}' || '\U{001C}' <= c <= ' ' || c == '\U{0085}' || c == '\U{00A0}' || c == '\U{1680}'
    || '\U{2000}' <= c <= '\U{200A}' || c == '\U{2028}' || c == '\U{2029}' || c == '\U{202F}' || c == '\U{205F}' || c == '\U{3000}'
  }

  /** Where a row of ten decimal digits starts in Unicode 15, beyond ASCII. */
  const DECIMAL_ROWS: seq<int> := [
    0x0660, 0x06F0, 0x07C0, 0x0966, 0x09E6, 0x0A66, 0x0AE6, 0x0B66, 0x0BE6, 0x0C66, 0x0CE6, 0x0D66, 0x0DE6, 0x0E50, 0x0ED0,
    0x0F20, 0x1040, 0x1090, 0x17E0, 0x1810, 0x1946, 0x19D0, 0x1A80, 0x1A90, 0x1B50, 0x1BB0, 0x1C40, 0x1C50, 0xA620, 0xA8D0,
    0xA900, 0xA9D0, 0xA9F0, 0xAA50, 0xABF0, 0xFF10, 0x104A0, 0x10D30, 0x11066, 0x110F0, 0x11136, 0x111D0, 0x112F0, 0x11450,
    0x114D0, 0x11650, 0x116C0, 0x11730, 0x118E0, 0x11950, 0x11C50, 0x11D50, 0x11DA0, 0x11F50, 0x16A60, 0x16AC0, 0x16B50,
    0x1D7CE, 0x1D7D8, 0x1D7E2, 0x1D7EC, 0x1D7F6, 0x1E140, 0x1E2F0, 0x1E4F0, 0x1E950, 0x1FBF0]

  /** The ranges of characters that count as digits without being decimal: superscripts, circled digits and others. */
  const DIGIT_RANGES: seq<(int, int)> := [
    (0xB2, 0xB3), (0xB9, 0xB9), (0x1369, 0x1371), (0x19DA, 0x19DA), (0x2070, 0x2070), (0x2074, 0x2079), (0x2080, 0x2089),
    (0x2460, 0x2468), (0x2474, 0x247C), (0x2488, 0x2490), (0x24EA, 0x24EA), (0x24F5, 0x24FD), (0x24FF, 0x24FF),
    (0x2776, 0x277E), (0x2780, 0x2788), (0x278A, 0x2792), (0x10A40, 0x10A43), (0x10E60, 0x10E68), (0x11052, 0x1105A),
    (0x1F100, 0x1F10A)]

  predicate InDecimalRow(n: int) { exists row :: row in DECIMAL_ROWS && row <= n < row + 10 }

  predicate InDigitRange(n: int) { exists range :: range in DIGIT_RANGES && range.0 <= n <= range.1 }

  /** The digits `int` reads. */
  predicate IsDecimalChar(c: char) { '0' <= c <= '9' || (c >= '\U{0660}' && InDecimalRow(c as int)) }

  /** The digits `str.isdigit` knows. */
  predicate IsDigitChar(c: char) { IsDecimalChar(c) || (c >= '\U{00B2}' && InDigitRange(c as int)) }

  // ---- Methods of strings -----------------------------------------------------------------------------------------

  predicate IsDigits(s: string) { s != "" && forall i :: 0 <= i < |s| ==> IsDigitChar(s[i]) }

  predicate IsDecimals(s: string) { s != "" && forall i :: 0 <= i < |s| ==> IsDecimalChar(s[i]) }

  function StripLeft(s: string): string { if s != "" && IsSpace(s[0]) then StripLeft(s[1..]) else s }

  function StripRight(s: string): string {
    if s != "" && IsSpace(s[|s| - 1]) then StripRight(s[..|s| - 1]) else s
  }

  function Strip(s: string): string { StripRight(StripLeft(s)) }

  predicate Stripped(s: string) { s != "" ==> !IsSpace(s[0]) && !IsSpace(s[|s| - 1]) }

  lemma StripKeeps(s: string)
    requires Stripped(s)
    ensures Strip(s) == s
  {
  }

  /** A space in front goes. */
  lemma StripPadded(s: string)
    requires Stripped(s)
    ensures Strip(" " + s) == s
  {
    assert (" " + s)[1..] == s;
    assert StripLeft(" " + s) == StripLeft(s);
  }

  /** The position of the first colon, or the length. */
  function Colon(s: string): (n: nat)
    ensures n <= |s| && (n < |s| ==> s[n] == ':') && (forall i :: 0 <= i < n ==> s[i] != ':')
    ensures ':' in s <==> n < |s|
  {
    if s == "" then 0 else if s[0] == ':' then 0 else 1 + Colon(s[1..])
  }

  /** `s.partition(":")`, both sides stripped. */
  function Partition(s: string): (string, string) {
    var n := Colon(s);
    (Strip(s[..n]), if n < |s| then Strip(s[n + 1..]) else "")
  }

  /** What `_validate_safe_str` lets pass. */
  predicate IsSafeText(s: string) { s != "" && Stripped(s) && '\0' !in s && '\r' !in s && '\n' !in s }

  /** `[0-9a-f]{40}`. */
  predicate IsShaText(s: string) {
    |s| == 40 && forall i :: 0 <= i < |s| ==> '0' <= s[i] <= '9' || 'a' <= s[i] <= 'f'
  }

  // ---- Lines -------------------------------------------------------------------------------------------------------

  /** Where `str.splitlines` ends a line. */
  predicate IsBreak(c: char) {
    || '\U{000A}' <= c <= '\U{000D}' || '\U{001C}' <= c <= '\U{001E}' || c == '\U{0085}' || c == '\U{2028}' || c == '\U{2029}'
  }

  predicate IsLineEnd(s: string) { |s| > 1 && s[0] == '\r' && s[1] == '\n' }

  /** The pieces between the line breaks, a carriage return with its line feed being one. */
  function Pieces(s: string): (ps: seq<string>)
    ensures ps != []
  {
    if s == "" then [""]
    else if IsLineEnd(s) then [""] + Pieces(s[2..])
    else if IsBreak(s[0]) then [""] + Pieces(s[1..])
    else [[s[0]] + Pieces(s[1..])[0]] + Pieces(s[1..])[1..]
  }

  /** `str.splitlines`. */
  function BreakLines(s: string): seq<string> {
    var ps := Pieces(s);
    if ps[|ps| - 1] == "" then ps[..|ps| - 1] else ps
  }

  /** What reading a file as text makes of the ends of its lines. */
  function Translated(s: string): string {
    if s == "" then ""
    else if IsLineEnd(s) then "\n" + Translated(s[2..])
    else [if s[0] == '\r' then '\n' else s[0]] + Translated(s[1..])
  }

  lemma {:induction false} PiecesTranslated(s: string)
    ensures Pieces(Translated(s)) == Pieces(s)
  {
    if s != "" {
      var t := Translated(s);
      if IsLineEnd(s) {
        PiecesTranslated(s[2..]);
        assert t[1..] == Translated(s[2..]);
      } else {
        PiecesTranslated(s[1..]);
        assert t[1..] == Translated(s[1..]) && !IsLineEnd(t);
      }
    }
  }

  // ---- Numbers -----------------------------------------------------------------------------------------------------

  /** Python prints and reads no integer with more digits than this. */
  const MAX_DIGITS := 4300

  function PrintInt(n: int): string { if n < 0 then "-" + Decimal.Print(-n) else Decimal.Print(n) }

  predicate IsShort(n: int) { |Decimal.Print(if n < 0 then -n else n)| <= MAX_DIGITS }

  function RowDigit(n: int, rows: seq<int>): nat {
    if rows == [] then 0 else if rows[0] <= n < rows[0] + 10 then n - rows[0] else RowDigit(n, rows[1..])
  }

  /** The value of a decimal digit of any script. */
  function DigitOf(c: char): nat {
    if '0' <= c <= '9' then c as int - '0' as int else RowDigit(c as int, DECIMAL_ROWS)
  }

  /** `int` of countable digits. */
  function NumberOf(s: string): nat {
    if s == "" then 0 else 10 * NumberOf(s[..|s| - 1]) + DigitOf(s[|s| - 1])
  }

  lemma {:induction false} NumberOfDecimal(s: string)
    requires Decimal.AllDigits(s)
    ensures NumberOf(s) == Decimal.Parse(s)
  {
    if s != "" {
      NumberOfDecimal(s[..|s| - 1]);
      assert Decimal.IsDigit(s[|s| - 1]);
    }
  }

  /** Digits that `int` turns into a number; other digits make it raise an untyped error. */
  predicate IsCountable(s: string) { IsDecimals(s) && |s| <= MAX_DIGITS }
}
