/** Scalars of the evidence document: quoting, escaping and the cursor that reads them back
    (`difficulty_assessment_evidence.py`). */
module ScalarCodec {
  import opened Wrappers
  import Decimal

  /** The fields of the document. */
  datatype FieldName =
    | SchemaVersion | AssessmentId | TaskId | Revision
    | MinimumDifficulty | RecommendedDifficulty | SelectedDifficulty | DimensionResultList
    | Dimension | DimensionDifficulty | RationaleKey | HardFloor
    | OverrideDirection | OverrideReason | ApprovalId | PolicyVersion | SnapshotCommit

  /** What is wrong, mostly about one field; the source spells these as strings such as `task_id_empty`. */
  datatype Code =
    | Empty(field: FieldName) | ControlCharacter(field: FieldName) | IntegerRange(field: FieldName)
    | BadScalar(field: FieldName) | BadEscape(field: FieldName) | BareQuote(field: FieldName)
    | NoncanonicalScalar(field: FieldName) | BadInteger(field: FieldName)
    | WrongOrder(field: FieldName) | RootCount | DimensionCount | TrailingContent
    | FinalLf | ExtraFinalLf | BlankLine | Bom | CarriageReturn | Tab | Nul
    | WrongType(field: FieldName) | WrongValue(field: FieldName) | NotInEnum(field: FieldName)
    | CommitFormat | DimensionResultsCount | AssessmentInvariant | NoncanonicalEncoding

  /** The source's typed errors, plus the two untyped ones it lets through: an index past the last line, and
      Python's refusal to print an integer of more than `MAX_DIGITS` digits. */
  datatype EvidenceError =
    | InputError(code: Code)
    | SchemaError(code: Code)
    | SecurityError(code: Code)
    | IndexPastEnd
    | DigitLimitExceeded

  datatype Scalar = Null | Bool(flag: bool) | Int(number: int) | Str(text: string)

  const MAX_DIGITS := 4300

  predicate IsSafeChar(c: char) { ' ' <= c && c != '\U{7F}' }

  predicate AllSafe(s: string) { forall i :: 0 <= i < |s| ==> IsSafeChar(s[i]) }

  function SafeStringError(s: string, field: FieldName): Option<EvidenceError> {
    if s == "" then Some(InputError(Empty(field)))
    else if !AllSafe(s) then Some(InputError(ControlCharacter(field)))
    else None
  }

  /** Python's `s.replace(c, with)` for a one-character pattern. */
  function ReplaceChar(s: string, c: char, with: string): string {
    if s == "" then "" else (if s[0] == c then with else [s[0]]) + ReplaceChar(s[1..], c, with)
  }

  /** Two passes, backslashes first. */
  function Escape(s: string): string {
    ReplaceChar(ReplaceChar(s, '\\', "\\\\"), '"', "\\\"")
  }

  function Quote(s: string, field: FieldName): Result<string, EvidenceError> {
    var error := SafeStringError(s, field);
    if error.Some? then Failure(error.value) else Success("\"" + Escape(s) + "\"")
  }

  function Prepend(front: string, r: Result<string, EvidenceError>): Result<string, EvidenceError> {
    match r
    case Success(back) => Success(front + back)
    case Failure(e) => Failure(e)
  }

  /** What the text between the quotes stands for, or the first complaint about it. */
  function Unescape(inner: string, field: FieldName): Result<string, EvidenceError>
    decreases |inner|
  {
    if inner == "" then Success("")
    else if inner[0] == '\\' then
      if |inner| < 2 || (inner[1] != '"' && inner[1] != '\\') then Failure(SchemaError(BadEscape(field)))
      else Prepend([inner[1]], Unescape(inner[2..], field))
    else if inner[0] == '"' then Failure(SchemaError(BareQuote(field)))
    else if !IsSafeChar(inner[0]) then Failure(SchemaError(ControlCharacter(field)))
    else Prepend([inner[0]], Unescape(inner[1..], field))
  }

  /** The value of a quoted token; ends with the source's own comparison against the canonical quoting. */
  function ParseQuoted(token: string, field: FieldName): Result<string, EvidenceError> {
    if |token| < 2 || token[0] != '"' || token[|token| - 1] != '"' then Failure(SchemaError(BadScalar(field)))
    else
      var text :- Unescape(token[1..|token| - 1], field);
      var quoted :- Quote(text, field);
      if quoted != token then Failure(SchemaError(NoncanonicalScalar(field))) else Success(text)
  }

  lemma PrependPrepend(a: string, b: string, r: Result<string, EvidenceError>)
    ensures Prepend(a, Prepend(b, r)) == Prepend(a + b, r)
  {
    if r.Success? {
      assert a + (b + r.value) == (a + b) + r.value;
    }
  }

  /** What the cursor at `index` reads next. */
  lemma UnescapeAt(inner: string, index: nat, field: FieldName)
    requires index < |inner|
    ensures
      var c := inner[index];
      Unescape(inner[index..], field) ==
        if c == '\\' then
          if index + 1 >= |inner| || (inner[index + 1] != '"' && inner[index + 1] != '\\')
          then Failure(SchemaError(BadEscape(field)))
          else Prepend([inner[index + 1]], Unescape(inner[index + 2..], field))
        else if c == '"' then Failure(SchemaError(BareQuote(field)))
        else if !IsSafeChar(c) then Failure(SchemaError(ControlCharacter(field)))
        else Prepend([c], Unescape(inner[index + 1..], field))
  {
    var from := inner[index..];
    assert from[1..] == inner[index + 1..];
    if index + 1 < |inner| {
      assert from[1] == inner[index + 1] && from[2..] == inner[index + 2..];
    }
  }

  lemma UnescapeAtEnd(inner: string, field: FieldName)
    ensures Unescape(inner[|inner|..], field) == Success("")
  {
  }

  /** The index loop of `_parse_quoted_scalar`. */
  method UnescapeLoop(inner: string, field: FieldName) returns (r: Result<string, EvidenceError>)
    ensures r == Unescape(inner, field)
  {
    var characters := "";
    var index := 0;
    ghost var expected := Unescape(inner, field);
    assert inner[0..] == inner;
    assert expected.Success? ==> "" + expected.value == expected.value;
    hide Unescape, IsSafeChar;
    while index < |inner|
      invariant index <= |inner|
      invariant expected == Prepend(characters, Unescape(inner[index..], field))
    {
      UnescapeAt(inner, index, field);
      var character := inner[index];
      if character == '\\' {
        index := index + 1;
        if index >= |inner| || (inner[index] != '"' && inner[index] != '\\') {
          return Failure(SchemaError(BadEscape(field)));
        }
        character := inner[index];
      } else if character == '"' {
        return Failure(SchemaError(BareQuote(field)));
      } else if !IsSafeChar(character) {
        return Failure(SchemaError(ControlCharacter(field)));
      }
      PrependPrepend(characters, [character], Unescape(inner[index + 1..], field));
      characters := characters + [character];
      index := index + 1;
    }
    UnescapeAtEnd(inner, field);
    assert characters + "" == characters;
    return Success(characters);
  }

  method ParseQuotedScalar(token: string, field: FieldName) returns (r: Result<string, EvidenceError>)
    ensures r == ParseQuoted(token, field)
  {
    if |token| < 2 || token[0] != '"' || token[|token| - 1] != '"' {
      return Failure(SchemaError(BadScalar(field)));
    }
    var text := UnescapeLoop(token[1..|token| - 1], field);
    if text.Failure? {
      return text;
    }
    var quoted := Quote(text.value, field);
    if quoted.Success? && quoted.value != token {
      return Failure(SchemaError(NoncanonicalScalar(field)));
    }
    return if quoted.Failure? then quoted else text;
  }

  function PrintScalar(v: Scalar, field: FieldName): Result<string, EvidenceError> {
    match v
    case Null => Success("null")
    case Bool(flag) => Success(if flag then "true" else "false")
    case Int(n) =>
      if n < 0 then Failure(InputError(IntegerRange(field)))
      else if |Decimal.Print(n)| > MAX_DIGITS then Failure(DigitLimitExceeded)
      else Success(Decimal.Print(n))
    case Str(s) => Quote(s, field)
  }

  function ParseScalar(token: string, field: FieldName): Result<Scalar, EvidenceError> {
    if token == "null" then Success(Null)
    else if token == "true" then Success(Bool(true))
    else if token == "false" then Success(Bool(false))
    else if |token| > 0 && token[0] == '"' then
      var text :- ParseQuoted(token, field);
      Success(Str(text))
    else if Decimal.IsNumeral(token) then
      if |token| > MAX_DIGITS then Failure(SchemaError(BadInteger(field))) else Success(Int(Decimal.Parse(token)))
    else Failure(SchemaError(BadScalar(field)))
  }

  // ---- Quoting and unquoting are inverse -------------------------------------------------------------------------

  lemma {:induction false} ReplaceConcat(a: string, b: string, c: char, with: string)
    ensures ReplaceChar(a + b, c, with) == ReplaceChar(a, c, with) + ReplaceChar(b, c, with)
  {
    if a == "" {
      assert a + b == b;
    } else {
      assert (a + b)[1..] == a[1..] + b;
      ReplaceConcat(a[1..], b, c, with);
    }
  }

  function EscapedChar(c: char): string {
    if c == '\\' then "\\\\" else if c == '"' then "\\\"" else [c]
  }

  /** The two replacement passes amount to escaping each character once. */
  lemma EscapeCons(s: string)
    requires s != ""
    ensures Escape(s) == EscapedChar(s[0]) + Escape(s[1..])
  {
    var rest := ReplaceChar(s[1..], '\\', "\\\\");
    if s[0] == '\\' {
      var pair := "\\\\";
      assert ReplaceChar(s, '\\', pair) == pair + rest;
      ReplaceConcat(pair, rest, '"', "\\\"");
      assert pair[1..] == "\\" && pair[1..][1..] == "";
      assert ReplaceChar(pair[1..], '"', "\\\"") == "\\" + ReplaceChar("", '"', "\\\"");
      assert ReplaceChar(pair, '"', "\\\"") == pair;
    } else {
      assert ReplaceChar(s, '\\', "\\\\") == [s[0]] + rest;
      assert ([s[0]] + rest)[1..] == rest;
    }
  }

  lemma {:induction false} UnescapeEscape(s: string, field: FieldName)
    requires AllSafe(s)
    ensures Unescape(Escape(s), field) == Success(s)
  {
    if s != "" {
      EscapeCons(s);
      UnescapeEscape(s[1..], field);
      var head, tail := EscapedChar(s[0]), Escape(s[1..]);
      assert (head + tail)[|head|..] == tail;
      assert [s[0]] + s[1..] == s;
    }
  }

  lemma {:induction false} EscapeUnescape(inner: string, field: FieldName)
    requires Unescape(inner, field).Success?
    ensures AllSafe(Unescape(inner, field).value)
    ensures Escape(Unescape(inner, field).value) == inner
    decreases |inner|
  {
    if inner != "" {
      var used := if inner[0] == '\\' then 2 else 1;
      EscapeUnescape(inner[used..], field);
      var text := Unescape(inner, field).value;
      assert text[1..] == Unescape(inner[used..], field).value;
      EscapeCons(text);
      assert inner[..used] + inner[used..] == inner;
      assert EscapedChar(text[0]) == inner[..used];
    }
  }

  lemma {:induction false} EscapeSafe(s: string)
    requires AllSafe(s)
    ensures AllSafe(Escape(s))
  {
    if s != "" {
      EscapeCons(s);
      EscapeSafe(s[1..]);
    }
  }

  lemma ParseQuotedQuote(s: string, field: FieldName)
    requires Quote(s, field).Success?
    ensures ParseQuoted(Quote(s, field).value, field) == Success(s)
    ensures AllSafe(Quote(s, field).value)
  {
    var token := Quote(s, field).value;
    assert token[1..|token| - 1] == Escape(s);
    UnescapeEscape(s, field);
    EscapeSafe(s);
  }

  /** The quoting check at the end of `ParseQuoted` never fires: whatever unescapes is quoted canonically, so a
      quoted token is refused only for its shape, its escapes, its characters, or being empty. */
  lemma CanonicalCheckIsRedundant(token: string, field: FieldName)
    requires |token| >= 2 && token[0] == '"' && token[|token| - 1] == '"'
    ensures
      var text := Unescape(token[1..|token| - 1], field);
      ParseQuoted(token, field) == match text
        case Failure(e) => Failure(e)
        case Success(s) => if s == "" then Failure(InputError(Empty(field))) else Success(s)
    ensures ParseQuoted(token, field).Success? ==> Quote(ParseQuoted(token, field).value, field) == Success(token)
  {
    var inner := token[1..|token| - 1];
    if Unescape(inner, field).Success? {
      EscapeUnescape(inner, field);
      assert "\"" + inner + "\"" == token;
    }
  }

  /** Printing then reading a scalar gives the scalar back. */
  lemma ParsePrintScalar(v: Scalar, field: FieldName)
    requires PrintScalar(v, field).Success?
    ensures ParseScalar(PrintScalar(v, field).value, field) == Success(v)
    ensures PrintScalar(v, field).value != "" && AllSafe(PrintScalar(v, field).value)
  {
    hide ParseQuoted, Unescape, Escape, Decimal.Parse, Decimal.Print;
    match v
    case Null =>
    case Bool(_) =>
    case Int(n) =>
      Decimal.ParsePrint(n);
      NumeralIsSafe(Decimal.Print(n));
    case Str(s) =>
      ParseQuotedQuote(s, field);
      assert Quote(s, field).value[0] == '"';
      hide Quote;
  }

  lemma NumeralIsSafe(s: string)
    requires Decimal.IsNumeral(s)
    ensures AllSafe(s) && s[0] != '"' && s[0] != 'n' && s[0] != 't' && s[0] != 'f'
  {
    assert Decimal.IsDigit(s[0]);
  }

  /** Reading then printing a token gives the token back: every accepted token is already canonical. */
  lemma PrintParseScalar(token: string, field: FieldName)
    requires ParseScalar(token, field).Success?
    ensures PrintScalar(ParseScalar(token, field).value, field) == Success(token)
  {
    if token != "null" && token != "true" && token != "false" {
      if token[0] == '"' {
        CanonicalCheckIsRedundant(token, field);
      } else {
        Decimal.PrintParse(token);
      }
    }
  }
}
