/** Line-oriented documents: one scalar on each line, after a fixed prefix.  The shape of a document is a list of
    slots; `EvidenceCodec` supplies the slots of the difficulty evidence. */
module LineCodec {
  import opened Wrappers
  import opened ScalarCodec

  datatype Slot =
    | Header(line: string)
    | Field(prefix: string, name: FieldName, quotedOnly: bool, countCode: Code)

  function FieldCount(layout: seq<Slot>): nat {
    if layout == [] then 0 else (if layout[0].Field? then 1 else 0) + FieldCount(layout[1..])
  }

  /** One value for each field, and text wherever only a quoted scalar is read. */
  predicate Fits(layout: seq<Slot>, values: seq<Scalar>) {
    if layout == [] then values == []
    else if layout[0].Header? then Fits(layout[1..], values)
    else |values| > 0 && (layout[0].quotedOnly ==> values[0].Str?) && Fits(layout[1..], values[1..])
  }

  predicate CleanSlot(slot: Slot) {
    match slot
    case Header(line) => line != "" && AllSafe(line)
    case Field(prefix, _, _, _) => AllSafe(prefix)
  }

  predicate CleanLayout(layout: seq<Slot>) { forall slot :: slot in layout ==> CleanSlot(slot) }

  function PrintLines(layout: seq<Slot>, values: seq<Scalar>): Result<seq<string>, EvidenceError>
    requires Fits(layout, values)
  {
    if layout == [] then Success([])
    else if layout[0].Header? then
      var rest :- PrintLines(layout[1..], values);
      Success([layout[0].line] + rest)
    else
      var token :- PrintScalar(values[0], layout[0].name);
      var rest :- PrintLines(layout[1..], values[1..]);
      Success([layout[0].prefix + token] + rest)
  }

  /** Reads the line of one field slot. */
  function ParseField(slot: Slot, line: string): Result<Scalar, EvidenceError>
    requires slot.Field?
  {
    if !(slot.prefix <= line) then Failure(SchemaError(WrongOrder(slot.name)))
    else
      var token := line[|slot.prefix|..];
      if slot.quotedOnly then
        var text :- ParseQuoted(token, slot.name);
        Success(Str(text))
      else ParseScalar(token, slot.name)
  }

  function ParseLines(layout: seq<Slot>, lines: seq<string>): Result<seq<Scalar>, EvidenceError> {
    if layout == [] then if lines == [] then Success([]) else Failure(SchemaError(TrailingContent))
    else
      match layout[0]
      case Header(line) =>
        if lines == [] then Failure(IndexPastEnd)
        else if lines[0] != line then Failure(SchemaError(WrongOrder(DimensionResultList)))
        else ParseLines(layout[1..], lines[1..])
      case Field(_, _, _, countCode) =>
        if lines == [] then Failure(SchemaError(countCode))
        else
          var value :- ParseField(layout[0], lines[0]);
          var rest :- ParseLines(layout[1..], lines[1..]);
          Success([value] + rest)
  }

  function Prefixed(front: seq<Scalar>, r: Result<seq<Scalar>, EvidenceError>): Result<seq<Scalar>, EvidenceError> {
    match r
    case Success(back) => Success(front + back)
    case Failure(e) => Failure(e)
  }

  /** The cursor loop of `_parse_document`, with the seven dimensions unrolled into the layout. */
  method ReadLines(layout: seq<Slot>, lines: seq<string>) returns (r: Result<seq<Scalar>, EvidenceError>)
    ensures r == ParseLines(layout, lines)
  {
    var values: seq<Scalar> := [];
    var cursor := 0;
    ghost var expected := ParseLines(layout, lines);
    assert layout[0..] == layout && lines[0..] == lines;
    assert expected.Success? ==> [] + expected.value == expected.value;
    while cursor < |layout|
      invariant cursor <= |layout| && cursor <= |lines|
      invariant expected == Prefixed(values, ParseLines(layout[cursor..], lines[cursor..]))
    {
      var slot := layout[cursor];
      ghost var slots, from := layout[cursor..], lines[cursor..];
      assert slots[0] == slot && slots[1..] == layout[cursor + 1..];
      if slot.Header? {
        if cursor >= |lines| {
          return Failure(IndexPastEnd);
        }
        assert from[0] == lines[cursor] && from[1..] == lines[cursor + 1..];
        if lines[cursor] != slot.line {
          return Failure(SchemaError(WrongOrder(DimensionResultList)));
        }
      } else {
        if cursor >= |lines| {
          return Failure(SchemaError(slot.countCode));
        }
        assert from[0] == lines[cursor] && from[1..] == lines[cursor + 1..];
        var value := ParseField(slot, lines[cursor]);
        if value.Failure? {
          return Failure(value.error);
        }
        ghost var rest := ParseLines(layout[cursor + 1..], lines[cursor + 1..]);
        assert rest.Success? ==> values + ([value.value] + rest.value) == (values + [value.value]) + rest.value;
        values := values + [value.value];
      }
      cursor := cursor + 1;
    }
    if cursor != |lines| {
      return Failure(SchemaError(TrailingContent));
    }
    assert values + [] == values;
    return Success(values);
  }

  // ---- Lines -----------------------------------------------------------------------------------------------------

  lemma ParsePrintField(slot: Slot, value: Scalar)
    requires slot.Field? && (slot.quotedOnly ==> value.Str?)
    requires PrintScalar(value, slot.name).Success?
    ensures ParseField(slot, slot.prefix + PrintScalar(value, slot.name).value) == Success(value)
    ensures CleanSlot(slot) ==>
      var line := slot.prefix + PrintScalar(value, slot.name).value; line != "" && AllSafe(line)
  {
    var token := PrintScalar(value, slot.name).value;
    assert (slot.prefix + token)[|slot.prefix|..] == token;
    ParsePrintScalar(value, slot.name);
    if value.Str? {
      ParseQuotedQuote(value.text, slot.name);
    }
  }

  lemma {:induction false} ParsePrintLines(layout: seq<Slot>, values: seq<Scalar>)
    requires Fits(layout, values) && CleanLayout(layout)
    requires PrintLines(layout, values).Success?
    ensures ParseLines(layout, PrintLines(layout, values).value) == Success(values)
    ensures forall line :: line in PrintLines(layout, values).value ==> line != "" && AllSafe(line)
    ensures |PrintLines(layout, values).value| == |layout|
  {
    if layout != [] {
      var lines := PrintLines(layout, values).value;
      assert CleanSlot(layout[0]);
      if layout[0].Header? {
        ParsePrintLines(layout[1..], values);
        assert lines[1..] == PrintLines(layout[1..], values).value;
      } else {
        ParsePrintField(layout[0], values[0]);
        ParsePrintLines(layout[1..], values[1..]);
        assert lines[1..] == PrintLines(layout[1..], values[1..]).value;
        assert [values[0]] + values[1..] == values;
      }
    }
  }

  lemma PrintParseField(slot: Slot, line: string)
    requires slot.Field? && ParseField(slot, line).Success?
    ensures slot.quotedOnly ==> ParseField(slot, line).value.Str?
    ensures PrintScalar(ParseField(slot, line).value, slot.name) == Success(line[|slot.prefix|..])
    ensures line == slot.prefix + line[|slot.prefix|..]
  {
    var token := line[|slot.prefix|..];
    if slot.quotedOnly {
      CanonicalCheckIsRedundant(token, slot.name);
    } else {
      PrintParseScalar(token, slot.name);
    }
  }

  lemma {:induction false} PrintParseLines(layout: seq<Slot>, lines: seq<string>)
    requires ParseLines(layout, lines).Success?
    ensures Fits(layout, ParseLines(layout, lines).value)
    ensures PrintLines(layout, ParseLines(layout, lines).value) == Success(lines)
  {
    if layout != [] {
      var values := ParseLines(layout, lines).value;
      assert [lines[0]] + lines[1..] == lines;
      PrintParseLines(layout[1..], lines[1..]);
      if layout[0].Field? {
        PrintParseField(layout[0], lines[0]);
        assert values[1..] == ParseLines(layout[1..], lines[1..]).value;
      }
    }
  }

  lemma {:induction false} FitsCount(layout: seq<Slot>, values: seq<Scalar>)
    requires Fits(layout, values)
    ensures |values| == FieldCount(layout)
  {
    if layout != [] {
      FitsCount(layout[1..], if layout[0].Header? then values else values[1..]);
    }
  }

  // ---- Text ------------------------------------------------------------------------------------------------------

  /** Every line followed by a line feed. */
  function Join(lines: seq<string>): string {
    if lines == [] then "" else lines[0] + "\n" + Join(lines[1..])
  }

  /** Python's `s.split("\n")`. */
  function Split(s: string): (lines: seq<string>)
    ensures |lines| > 0
  {
    if s == "" then [""]
    else
      var rest := Split(s[1..]);
      if s[0] == '\n' then [""] + rest else [[s[0]] + rest[0]] + rest[1..]
  }

  lemma JoinCons(line: string, rest: seq<string>)
    ensures Join([line] + rest) == line + "\n" + Join(rest)
  {
    assert ([line] + rest)[1..] == rest;
  }

  lemma {:induction false} JoinSplit(s: string)
    ensures Join(Split(s)) == s + "\n"
  {
    if s == "" {
      assert Join([""]) == "" + "\n" + Join([]);
    } else {
      JoinSplit(s[1..]);
      var rest := Split(s[1..]);
      assert s + "\n" == [s[0]] + (s[1..] + "\n");
      if s[0] == '\n' {
        JoinCons("", rest);
      } else {
        JoinCons(rest[0], rest[1..]);
        JoinCons([s[0]] + rest[0], rest[1..]);
        assert [rest[0]] + rest[1..] == rest;
        assert [s[0]] + (rest[0] + "\n" + Join(rest[1..])) == ([s[0]] + rest[0]) + "\n" + Join(rest[1..]);
      }
    }
  }

  lemma {:induction false} SplitLine(line: string, tail: string)
    requires '\n' !in line
    ensures Split(line) == [line]
    ensures Split(line + "\n" + tail) == [line] + Split(tail)
  {
    var s := line + "\n" + tail;
    if line == "" {
      assert s[1..] == tail;
    } else {
      SplitLine(line[1..], tail);
      assert s[1..] == line[1..] + "\n" + tail;
      assert [line[0]] + line[1..] == line;
      assert ([line[1..]] + Split(tail))[1..] == Split(tail);
    }
  }

  lemma {:induction false} SplitJoin(lines: seq<string>)
    requires lines != [] && forall line :: line in lines ==> '\n' !in line
    ensures |Join(lines)| > 0
    ensures Split(Join(lines)[..|Join(lines)| - 1]) == lines
  {
    var text := Join(lines);
    if lines[1..] == [] {
      assert text == lines[0] + "\n" + Join([]);
      assert text[..|text| - 1] == lines[0];
      assert lines == [lines[0]];
      SplitLine(lines[0], "");
    } else {
      var tail := Join(lines[1..]);
      SplitJoin(lines[1..]);
      SplitLine(lines[0], tail[..|tail| - 1]);
      assert text[..|text| - 1] == lines[0] + "\n" + tail[..|tail| - 1];
    }
  }

  predicate Printable(s: string) { forall i :: 0 <= i < |s| ==> IsSafeChar(s[i]) || s[i] == '\n' }

  lemma {:induction false} JoinShape(lines: seq<string>)
    requires lines != [] && forall i :: 0 <= i < |lines| ==> lines[i] != "" && AllSafe(lines[i])
    ensures
      var text := Join(lines);
      && Printable(text)
      && |text| >= 2 && text[0] == lines[0][0]
      && text[|text| - 1] == '\n' && text[|text| - 2] != '\n'
  {
    if lines[1..] != [] {
      JoinShape(lines[1..]);
    }
  }
}
