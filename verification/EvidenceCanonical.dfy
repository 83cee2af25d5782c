/** The evidence parser accepts exactly the encoder's output, and each of them undoes the other. */
module EvidenceCanonical {
  import opened Wrappers
  import opened Difficulty
  import opened ScalarCodec
  import opened LineCodec
  import opened EvidenceCodec

  // ---- Values and evidence ---------------------------------------------------------------------------------------

  lemma DifficultyText(d: TaskDifficulty, v: Scalar, field: FieldName)
    ensures DifficultyOf(Str(d.Text()), field) == Success(d)
    ensures DifficultyOf(v, field) == Success(d) ==> v == Str(d.Text())
  {
  }

  function Raw(d: DimensionResult): RawDimension {
    RawDimension(d.dimension.Text(), d.difficulty.Text(), d.rationaleKey, d.hardFloor)
  }

  function Raws(results: seq<DimensionResult>): seq<RawDimension> {
    seq(|results|, i requires 0 <= i < |results| => Raw(results[i]))
  }

  lemma {:induction false} RawsOfValues(results: seq<DimensionResult>)
    ensures |DimensionValues(results)| == 4 * |results|
    ensures RawDimensions(DimensionValues(results)) == Success(Raws(results))
  {
    if results == [] {
      assert Raws(results) == [];
    } else {
      RawsOfValues(results[1..]);
      var values := DimensionValues(results);
      assert values[4..] == DimensionValues(results[1..]);
      var first := RawDimension(values[0].text, values[1].text, values[2].text, values[3].flag);
      assert first == Raw(results[0]);
      assert RawDimensions(values) == Success([first] + Raws(results[1..]));
      assert [Raw(results[0])] + Raws(results[1..]) == Raws(results);
    }
  }

  lemma {:induction false} ValuesOfRaws(values: seq<Scalar>, results: seq<DimensionResult>)
    requires |values| % 4 == 0
    requires RawDimensions(values) == Success(Raws(results))
    ensures values == DimensionValues(results)
  {
    if values != [] {
      var rest := RawDimensions(values[4..]).value;
      assert Raws(results)[0] == RawDimension(values[0].text, values[1].text, values[2].text, values[3].flag);
      assert rest == Raws(results)[1..] == Raws(results[1..]);
      ValuesOfRaws(values[4..], results[1..]);
      assert values == [values[0], values[1], values[2], values[3]] + values[4..];
    }
  }

  lemma SameRaws(raw: seq<RawDimension>, results: seq<DimensionResult>)
    requires |raw| == |results| && forall i :: 0 <= i < |raw| ==> SameDimension(raw[i], results[i])
    ensures raw == Raws(results) && RawKeys(raw) == Keys(results)
  {
    forall i | 0 <= i < |raw| ensures raw[i] == Raw(results[i]) {
    }
  }

  lemma AssessedInputs(policy: Policy, id: string, task: string, revision: int, keys: seq<string>,
                      selected: Option<TaskDifficulty>, reason: Option<string>, approval: Option<string>)
    requires Assess(policy, id, task, revision, keys, selected, reason, approval).Success?
    ensures
      var a := Assess(policy, id, task, revision, keys, selected, reason, approval).value;
      && |a.dimensionResults| == |DIMENSION_ORDER|
      && a.assessmentId == id && a.taskId == task && a.revision == revision
      && (selected.Some? ==> a.selected == selected.value)
      && a.overrideReason == reason && a.approvalId == approval
      && Keys(a.dimensionResults) == keys
  {
    var a := Assess(policy, id, task, revision, keys, selected, reason, approval).value;
    assert Keys(a.dimensionResults) == keys;
  }

  /** What the rebuilder has established when it succeeds. */
  predicate Rebuilt(policy: Policy, head: seq<Scalar>, raw: seq<RawDimension>, tail: seq<Scalar>, e: Evidence)
    requires |head| == 7 && |tail| == 5
  {
    && ShapeError(head, tail).None?
    && DifficultyOf(head[4], MinimumDifficulty) == Success(e.assessment.minimum)
    && DifficultyOf(head[5], RecommendedDifficulty) == Success(e.assessment.recommended)
    && DifficultyOf(head[6], SelectedDifficulty) == Success(e.assessment.selected)
    && Assess(policy, TextOf(head[1]), TextOf(head[2]), NumberOf(head[3]), RawKeys(raw), Some(e.assessment.selected),
              OptionOf(tail[1]), OptionOf(tail[2])) == Success(e.assessment)
    && e.assessment.direction.Text() == TextOf(tail[0])
    && |e.assessment.dimensionResults| == |raw|
    && (forall i :: 0 <= i < |raw| ==> SameDimension(raw[i], e.assessment.dimensionResults[i]))
    && e.snapshotCommit == TextOf(tail[4])
  }

  lemma RebuiltFacts(policy: Policy, head: seq<Scalar>, dimensions: seq<Scalar>, tail: seq<Scalar>, e: Evidence)
    requires |head| == 7 && |dimensions| % 4 == 0 && |tail| == 5
    requires RebuildParts(policy, head, dimensions, tail) == Success(e)
    ensures RawDimensions(dimensions).Success? && Rebuilt(policy, head, RawDimensions(dimensions).value, tail, e)
  {
    hide Assess, SameDimension, DifficultyOf, ShapeError, RawDimensions, TextOf, NumberOf, OptionOf;
    var raw := RawDimensions(dimensions).value;
    var selected := DifficultyOf(head[6], SelectedDifficulty).value;
    AssessedInputs(policy, TextOf(head[1]), TextOf(head[2]), NumberOf(head[3]), RawKeys(raw), Some(selected),
                   OptionOf(tail[1]), OptionOf(tail[2]));
  }

  lemma HeadOfRebuilt(policy: Policy, head: seq<Scalar>, raw: seq<RawDimension>, tail: seq<Scalar>, e: Evidence)
    requires |head| == 7 && |tail| == 5 && Rebuilt(policy, head, raw, tail, e)
    ensures head == HeadValues(e.assessment)
  {
    hide Assess, IsCommit, DifficultyOf, SameDimension, OptionOf;
    AssessedInputs(policy, TextOf(head[1]), TextOf(head[2]), NumberOf(head[3]), RawKeys(raw), Some(e.assessment.selected),
                   OptionOf(tail[1]), OptionOf(tail[2]));
    DifficultyText(e.assessment.minimum, head[4], MinimumDifficulty);
    DifficultyText(e.assessment.recommended, head[5], RecommendedDifficulty);
    DifficultyText(e.assessment.selected, head[6], SelectedDifficulty);
  }

  lemma TailOfRebuilt(policy: Policy, head: seq<Scalar>, raw: seq<RawDimension>, tail: seq<Scalar>, e: Evidence)
    requires |head| == 7 && |tail| == 5 && Rebuilt(policy, head, raw, tail, e)
    ensures tail == TailValues(e)
  {
    hide Assess, IsCommit, DifficultyOf, SameDimension;
    AssessedInputs(policy, TextOf(head[1]), TextOf(head[2]), NumberOf(head[3]), RawKeys(raw), Some(e.assessment.selected),
                   OptionOf(tail[1]), OptionOf(tail[2]));
  }

  lemma RebuiltIsValid(policy: Policy, head: seq<Scalar>, raw: seq<RawDimension>, tail: seq<Scalar>, e: Evidence)
    requires |head| == 7 && |tail| == 5 && Rebuilt(policy, head, raw, tail, e)
    ensures ValidationError(policy, e).None?
  {
    hide Assess, DifficultyOf, SameDimension;
    AssessedInputs(policy, TextOf(head[1]), TextOf(head[2]), NumberOf(head[3]), RawKeys(raw), Some(e.assessment.selected),
                   OptionOf(tail[1]), OptionOf(tail[2]));
  }

  /** Evidence rebuilt from parsed values is valid, and its values are the parsed ones. */
  lemma RebuiltParts(policy: Policy, head: seq<Scalar>, dimensions: seq<Scalar>, tail: seq<Scalar>, e: Evidence)
    requires |head| == 7 && |dimensions| % 4 == 0 && |tail| == 5
    requires RebuildParts(policy, head, dimensions, tail) == Success(e)
    ensures ValidationError(policy, e).None?
    ensures head + dimensions + tail == Values(e)
  {
    hide Assess, IsCommit, ValidationError, RebuildParts;
    RebuiltFacts(policy, head, dimensions, tail, e);
    var raw := RawDimensions(dimensions).value;
    HeadOfRebuilt(policy, head, raw, tail, e);
    TailOfRebuilt(policy, head, raw, tail, e);
    RebuiltIsValid(policy, head, raw, tail, e);
    SameRaws(raw, e.assessment.dimensionResults);
    ValuesOfRaws(dimensions, e.assessment.dimensionResults);
  }

  /** The values of valid evidence rebuild to that evidence. */
  lemma RebuildsParts(policy: Policy, e: Evidence)
    requires ValidationError(policy, e).None?
    ensures |DimensionValues(e.assessment.dimensionResults)| == 28
    ensures RebuildParts(policy, HeadValues(e.assessment), DimensionValues(e.assessment.dimensionResults), TailValues(e))
         == Success(e)
  {
    hide Assess, IsCommit, DifficultyOf, RawDimensions, DimensionValues;
    var a := e.assessment;
    RawsOfValues(a.dimensionResults);
    assert RawKeys(Raws(a.dimensionResults)) == Keys(a.dimensionResults);
    DifficultyText(a.minimum, Null, MinimumDifficulty);
    DifficultyText(a.recommended, Null, RecommendedDifficulty);
    DifficultyText(a.selected, Null, SelectedDifficulty);
    assert OptionOf(OptionalText(a.overrideReason)) == a.overrideReason;
    assert OptionOf(OptionalText(a.approvalId)) == a.approvalId;
  }

  lemma RebuildOfValues(policy: Policy, e: Evidence)
    requires ValidationError(policy, e).None?
    ensures |Values(e)| == 40 && Rebuild(policy, Values(e)) == Success(e)
  {
    RebuildsParts(policy, e);
    var v := Values(e);
    assert v[..7] == HeadValues(e.assessment);
    assert v[7..35] == DimensionValues(e.assessment.dimensionResults);
    assert v[35..] == TailValues(e);
  }

  lemma Slices(values: seq<Scalar>)
    requires |values| == 40
    ensures values[..7] + values[7..35] + values[35..] == values
  {
  }

  lemma ValuesOfRebuilt(policy: Policy, values: seq<Scalar>, e: Evidence)
    requires |values| == 40 && Rebuild(policy, values) == Success(e)
    ensures ValidationError(policy, e).None? && Values(e) == values
  {
    hide Assess, IsCommit, ValidationError, RebuildParts;
    Slices(values);
    RebuiltParts(policy, values[..7], values[7..35], values[35..], e);
  }

  // ---- Lines and text --------------------------------------------------------------------------------------------

  lemma LinesOfText(data: string)
    requires TextLines(data).Success?
    ensures Join(TextLines(data).value) == data
  {
    JoinSplit(data[..|data| - 1]);
    assert data[..|data| - 1] + "\n" == data;
  }

  lemma NoFeed(line: string)
    requires AllSafe(line)
    ensures '\n' !in line
  {
  }

  lemma NoControls(data: string)
    requires Printable(data)
    ensures '\r' !in data && '\t' !in data && '\0' !in data
  {
  }

  lemma TextOfLines(lines: seq<string>)
    requires lines != [] && forall i :: 0 <= i < |lines| ==> lines[i] != "" && AllSafe(lines[i])
    requires lines[0][0] != '\U{FEFF}'
    ensures TextLines(Join(lines)) == Success(lines)
  {
    hide AllSafe, Printable, Split, Join, IsSafeChar;
    JoinShape(lines);
    NoControls(Join(lines));
    forall line | line in lines ensures '\n' !in line {
      NoFeed(line);
    }
    SplitJoin(lines);
  }

  // ---- Main results ----------------------------------------------------------------------------------------------

  /** The parser alone is canonical: whatever it accepts is already the encoding of its result. */
  lemma ReadIsCanonical(policy: Policy, data: string, e: Evidence)
    requires Read(policy, data) == Success(e)
    ensures Encode(policy, e) == Success(data)
  {
    var lines := TextLines(data).value;
    var values := ParseLines(Layout(), lines).value;
    ParsedCount(lines, values);
    ValuesOfRebuilt(policy, values, e);
    PrintParseLines(Layout(), lines);
    LinesOfText(data);
  }

  lemma FirstLine(values: seq<Scalar>)
    requires Fits(Layout(), values) && PrintLines(Layout(), values).Success?
    ensures var lines := PrintLines(Layout(), values).value;
      lines != [] && lines[0] != "" && lines[0][0] == 's'
  {
    assert Layout()[0] == RootSlot(SchemaVersion);
    assert RootSlot(SchemaVersion).prefix[0] == 's';
  }

  /** Reading an encoding gives the evidence back. */
  lemma ReadEncode(policy: Policy, e: Evidence, data: string)
    requires Encode(policy, e) == Success(data)
    ensures Read(policy, data) == Success(e)
  {
    hide Layout, Values, Rebuild, TextLines, Assess, Fits, PrintLines, ParseLines, Join, CleanLayout;
    ValuesFit(e);
    var lines := PrintLines(Layout(), Values(e)).value;
    LayoutClean();
    ParsePrintLines(Layout(), Values(e));
    FirstLine(Values(e));
    TextOfLines(lines);
    RebuildOfValues(policy, e);
  }

  /** The final comparison of the decoder never fails: decoding is parsing and rebuilding. */
  lemma FinalComparisonIsRedundant(policy: Policy, data: string)
    ensures Decode(policy, data) == Read(policy, data)
  {
    if Read(policy, data).Success? {
      ReadIsCanonical(policy, data, Read(policy, data).value);
    }
  }

  /** The decoder accepts exactly the encodings, each as the evidence it encodes. */
  lemma DecodeInvertsEncode(policy: Policy, data: string, e: Evidence)
    ensures Decode(policy, data) == Success(e) <==> Encode(policy, e) == Success(data)
  {
    FinalComparisonIsRedundant(policy, data);
    if Encode(policy, e) == Success(data) {
      ReadEncode(policy, e, data);
    }
    if Read(policy, data) == Success(e) {
      ReadIsCanonical(policy, data, e);
    }
  }

  /** No two pieces of evidence share an encoding. */
  lemma EncodeInjective(policy: Policy, e: Evidence, f: Evidence)
    requires Encode(policy, e).Success? && Encode(policy, e) == Encode(policy, f)
    ensures e == f
  {
    var data := Encode(policy, e).value;
    DecodeInvertsEncode(policy, data, e);
    DecodeInvertsEncode(policy, data, f);
  }
}
