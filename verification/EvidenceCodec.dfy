/** The canonical evidence document of a difficulty assessment (`difficulty_assessment_evidence.py`). */
module EvidenceCodec {
  import opened Wrappers
  import opened Difficulty
  import opened ScalarCodec
  import opened LineCodec

  const SCHEMA_VERSION := "agentdesk.difficulty-assessment/v1"
  const POLICY_VERSION := "agentdesk.difficulty-policy/v1"

  /** An assessment and the commit it was made at.  The schema and policy versions of an assessment are fixed. */
  datatype Evidence = Evidence(assessment: Assessment, snapshotCommit: string)

  /** `[0-9a-f]{40}`. */
  predicate IsCommit(s: string) {
    |s| == 40 && forall i :: 0 <= i < |s| ==> '0' <= s[i] <= '9' || 'a' <= s[i] <= 'f'
  }

  // ---- The 41 lines ----------------------------------------------------------------------------------------------

  function Key(field: FieldName): string {
    match field
    case SchemaVersion => "schema_version"
    case AssessmentId => "assessment_id"
    case TaskId => "task_id"
    case Revision => "revision"
    case MinimumDifficulty => "minimum_difficulty"
    case RecommendedDifficulty => "recommended_difficulty"
    case SelectedDifficulty => "selected_difficulty"
    case DimensionResultList => "dimension_results"
    case Dimension => "dimension"
    case DimensionDifficulty => "difficulty"
    case RationaleKey => "rationale_key"
    case HardFloor => "hard_floor"
    case OverrideDirection => "override_direction"
    case OverrideReason => "override_reason"
    case ApprovalId => "approval_id"
    case PolicyVersion => "policy_version"
    case SnapshotCommit => "snapshot_commit"
  }

  function RootSlot(field: FieldName): Slot {
    Field(Key(field) + ": ", field, false, RootCount)
  }

  function DimensionSlot(field: FieldName): Slot {
    Field("    " + Key(field) + ": ", field, false, DimensionCount)
  }

  function DimensionSlots(): seq<Slot> {
    [Field("  - " + Key(Dimension) + ": ", Dimension, true, DimensionCount),
     DimensionSlot(DimensionDifficulty), DimensionSlot(RationaleKey), DimensionSlot(HardFloor)]
  }

  const HEAD_FIELDS: seq<FieldName> :=
    [SchemaVersion, AssessmentId, TaskId, Revision, MinimumDifficulty, RecommendedDifficulty, SelectedDifficulty]

  const TAIL_FIELDS: seq<FieldName> := [OverrideDirection, OverrideReason, ApprovalId, PolicyVersion, SnapshotCommit]

  function RootSlots(fields: seq<FieldName>): seq<Slot> {
    seq(|fields|, i requires 0 <= i < |fields| => RootSlot(fields[i]))
  }

  function ListHeader(): Slot { Header(Key(DimensionResultList) + ":") }

  function Repeat(slots: seq<Slot>, n: nat): seq<Slot> {
    if n == 0 then [] else slots + Repeat(slots, n - 1)
  }

  function Layout(): seq<Slot> {
    RootSlots(HEAD_FIELDS) + [ListHeader()] + Repeat(DimensionSlots(), |DIMENSION_ORDER|)
    + RootSlots(TAIL_FIELDS)
  }

  // ---- Evidence as a list of scalars -----------------------------------------------------------------------------

  function OptionalText(s: Option<string>): Scalar {
    if s.None? then Null else Str(s.value)
  }

  function HeadValues(a: Assessment): seq<Scalar> {
    [Str(SCHEMA_VERSION), Str(a.assessmentId), Str(a.taskId), Int(a.revision),
     Str(a.minimum.Text()), Str(a.recommended.Text()), Str(a.selected.Text())]
  }

  function DimensionValues(results: seq<DimensionResult>): (values: seq<Scalar>)
    ensures |values| == 4 * |results|
  {
    if results == [] then []
    else
      [Str(results[0].dimension.Text()), Str(results[0].difficulty.Text()), Str(results[0].rationaleKey),
       Bool(results[0].hardFloor)] + DimensionValues(results[1..])
  }

  function TailValues(e: Evidence): seq<Scalar> {
    [Str(e.assessment.direction.Text()), OptionalText(e.assessment.overrideReason),
     OptionalText(e.assessment.approvalId), Str(POLICY_VERSION), Str(e.snapshotCommit)]
  }

  function Values(e: Evidence): seq<Scalar> {
    HeadValues(e.assessment) + DimensionValues(e.assessment.dimensionResults) + TailValues(e)
  }

  // ---- The layout ------------------------------------------------------------------------------------------------

  lemma {:induction false} FitsConcat(a: seq<Slot>, b: seq<Slot>, u: seq<Scalar>, v: seq<Scalar>)
    requires Fits(a, u) && Fits(b, v)
    ensures Fits(a + b, u + v)
  {
    if a == [] {
      assert a + b == b && u + v == v;
    } else {
      assert (a + b)[1..] == a[1..] + b;
      if a[0].Header? {
        FitsConcat(a[1..], b, u, v);
      } else {
        assert (u + v)[1..] == u[1..] + v;
        FitsConcat(a[1..], b, u[1..], v);
      }
    }
  }

  lemma {:induction false} CountConcat(a: seq<Slot>, b: seq<Slot>)
    ensures FieldCount(a + b) == FieldCount(a) + FieldCount(b)
  {
    if a == [] {
      assert a + b == b;
    } else {
      assert (a + b)[1..] == a[1..] + b;
      CountConcat(a[1..], b);
    }
  }

  lemma {:induction false} FitsFields(fields: seq<FieldName>, values: seq<Scalar>)
    requires |fields| == |values|
    ensures Fits(RootSlots(fields), values)
    ensures FieldCount(RootSlots(fields)) == |fields|
  {
    if fields != [] {
      assert RootSlots(fields)[1..] == RootSlots(fields[1..]);
      FitsFields(fields[1..], values[1..]);
    }
  }

  lemma FitsDimension(d: DimensionResult)
    ensures Fits(DimensionSlots(), DimensionValues([d]))
    ensures FieldCount(DimensionSlots()) == 4
  {
    var rest := DimensionSlots()[1..];
    var values := [Str(d.dimension.Text()), Str(d.difficulty.Text()), Str(d.rationaleKey), Bool(d.hardFloor)];
    assert [d][1..] == [] && DimensionValues([]) == [] && DimensionValues([d]) == values + [];
    assert values + [] == values;
    assert values[1..] == [values[1], values[2], values[3]];
    assert rest[1..] == [rest[1], rest[2]] && rest[1..][1..] == [rest[2]] && rest[1..][1..][1..] == [];
    assert values[1..][1..] == [values[2], values[3]] && values[1..][1..][1..] == [values[3]];
    assert values[1..][1..][1..][1..] == [];
    assert Fits(rest[1..][1..], values[1..][1..][1..]);
    assert Fits(rest[1..], values[1..][1..]);
    assert FieldCount(rest[1..][1..]) == 1;
    assert FieldCount(rest[1..]) == 2;
    assert FieldCount(rest) == 3;
  }

  lemma {:induction false} FitsDimensions(results: seq<DimensionResult>)
    ensures Fits(Repeat(DimensionSlots(), |results|), DimensionValues(results))
    ensures FieldCount(Repeat(DimensionSlots(), |results|)) == 4 * |results| == |DimensionValues(results)|
  {
    if results != [] {
      FitsDimension(results[0]);
      FitsDimensions(results[1..]);
      assert DimensionValues(results) == DimensionValues([results[0]]) + DimensionValues(results[1..]);
      FitsConcat(DimensionSlots(), Repeat(DimensionSlots(), |results| - 1),
                 DimensionValues([results[0]]), DimensionValues(results[1..]));
      CountConcat(DimensionSlots(), Repeat(DimensionSlots(), |results| - 1));
    }
  }

  lemma ValuesFit(e: Evidence)
    requires |e.assessment.dimensionResults| == |DIMENSION_ORDER|
    ensures Fits(Layout(), Values(e))
    ensures |Values(e)| == FieldCount(Layout()) == 40
  {
    var head, header, dims, tail :=
      RootSlots(HEAD_FIELDS), [ListHeader()], Repeat(DimensionSlots(), |DIMENSION_ORDER|), RootSlots(TAIL_FIELDS);
    FitsFields(HEAD_FIELDS, HeadValues(e.assessment));
    FitsDimensions(e.assessment.dimensionResults);
    FitsFields(TAIL_FIELDS, TailValues(e));
    assert Fits(header, []) && FieldCount(header) == 0;
    FitsConcat(head, header, HeadValues(e.assessment), []);
    assert HeadValues(e.assessment) + [] == HeadValues(e.assessment);
    FitsConcat(head + header, dims, HeadValues(e.assessment), DimensionValues(e.assessment.dimensionResults));
    FitsConcat(head + header + dims, tail,
               HeadValues(e.assessment) + DimensionValues(e.assessment.dimensionResults), TailValues(e));
    FitsCount(Layout(), Values(e));
  }

  lemma ParsedCount(lines: seq<string>, values: seq<Scalar>)
    requires ParseLines(Layout(), lines) == Success(values)
    ensures |values| == 40
  {
    PrintParseLines(Layout(), lines);
    FitsCount(Layout(), values);
    LayoutCount();
  }

  lemma LayoutCount()
    ensures FieldCount(Layout()) == 40
  {
    var d := DimensionResult(ModificationScope, Basic, "", false);
    ValuesFit(Evidence(Assessment("", "", 1, Basic, Basic, Basic, [d, d, d, d, d, d, d], NoOverride, None, None), ""));
  }

  lemma {:induction false} RepeatClean(slots: seq<Slot>, n: nat)
    requires CleanLayout(slots)
    ensures CleanLayout(Repeat(slots, n))
  {
    if n > 0 {
      RepeatClean(slots, n - 1);
    }
  }

  lemma KeyCleanIdentity(field: FieldName)
    requires field.SchemaVersion? || field.AssessmentId? || field.TaskId? || field.Revision?
    ensures AllSafe(Key(field))
  {
  }

  lemma KeyCleanDifficulty(field: FieldName)
    requires field.MinimumDifficulty? || field.RecommendedDifficulty? || field.SelectedDifficulty?
    ensures AllSafe(Key(field))
  {
  }

  lemma KeyCleanDimension(field: FieldName)
    requires field.DimensionResultList? || field.Dimension? || field.DimensionDifficulty? || field.RationaleKey? || field.HardFloor?
    ensures AllSafe(Key(field))
  {
  }

  lemma KeyCleanTail(field: FieldName)
    requires field.OverrideDirection? || field.OverrideReason? || field.ApprovalId? || field.PolicyVersion? || field.SnapshotCommit?
    ensures AllSafe(Key(field))
  {
  }

  lemma KeyClean(field: FieldName)
    ensures AllSafe(Key(field))
  {
    hide AllSafe, Key;
    if field.SchemaVersion? || field.AssessmentId? || field.TaskId? || field.Revision? {
      KeyCleanIdentity(field);
    } else if field.MinimumDifficulty? || field.RecommendedDifficulty? || field.SelectedDifficulty? {
      KeyCleanDifficulty(field);
    } else if field in TAIL_FIELDS {
      KeyCleanTail(field);
    } else {
      KeyCleanDimension(field);
    }
  }

  lemma RootClean(fields: seq<FieldName>)
    ensures CleanLayout(RootSlots(fields))
  {
    forall slot | slot in RootSlots(fields) ensures CleanSlot(slot) {
      var i :| 0 <= i < |fields| && slot == RootSlot(fields[i]);
      KeyClean(fields[i]);
    }
  }

  lemma DimensionSlotClean(field: FieldName)
    ensures CleanSlot(DimensionSlot(field))
  {
    KeyClean(field);
  }

  lemma DimensionSlotsClean()
    ensures CleanLayout(DimensionSlots())
  {
    KeyClean(Dimension);
    DimensionSlotClean(DimensionDifficulty);
    DimensionSlotClean(RationaleKey);
    DimensionSlotClean(HardFloor);
  }

  lemma LayoutClean()
    ensures CleanLayout(Layout())
  {
    RootClean(HEAD_FIELDS);
    RootClean(TAIL_FIELDS);
    KeyClean(DimensionResultList);
    DimensionSlotsClean();
    RepeatClean(DimensionSlots(), |DIMENSION_ORDER|);
  }

  // ---- Encoding --------------------------------------------------------------------------------------------------

  function Keys(results: seq<DimensionResult>): seq<string> {
    seq(|results|, i requires 0 <= i < |results| => results[i].rationaleKey)
  }

  /** The assessment must be exactly what the policy recomputes from its own inputs. */
  function ValidationError(policy: Policy, e: Evidence): Option<EvidenceError> {
    var a := e.assessment;
    if |a.dimensionResults| != |DIMENSION_ORDER| then Some(InputError(DimensionResultsCount))
    else
      var recomputed := Assess(policy, a.assessmentId, a.taskId, a.revision, Keys(a.dimensionResults),
                               Some(a.selected), a.overrideReason, a.approvalId);
      if recomputed != Success(a) then Some(InputError(AssessmentInvariant))
      else
        var unsafe := SafeStringError(e.snapshotCommit, SnapshotCommit);
        if unsafe.Some? then unsafe
        else if !IsCommit(e.snapshotCommit) then Some(InputError(CommitFormat))
        else None
  }

  function Encode(policy: Policy, e: Evidence): Result<string, EvidenceError> {
    var error := ValidationError(policy, e);
    if error.Some? then Failure(error.value)
    else
      ValuesFit(e);
      var lines :- PrintLines(Layout(), Values(e));
      Success(Join(lines))
  }

  // ---- Decoding --------------------------------------------------------------------------------------------------

  /** The checks `_parse_document` makes before it looks at single lines. */
  function TextLines(data: string): Result<seq<string>, EvidenceError> {
    if data != "" && data[0] == '\U{FEFF}' then Failure(SecurityError(Bom))
    else if '\r' in data then Failure(SecurityError(CarriageReturn))
    else if '\t' in data then Failure(SecurityError(Tab))
    else if '\0' in data then Failure(SecurityError(Nul))
    else if data == "" || data[|data| - 1] != '\n' then Failure(SchemaError(FinalLf))
    else if |data| >= 2 && data[|data| - 2] == '\n' then Failure(SchemaError(ExtraFinalLf))
    else
      var lines := Split(data[..|data| - 1]);
      if "" in lines then Failure(SchemaError(BlankLine)) else Success(lines)
  }

  function DifficultyOf(v: Scalar, field: FieldName): Result<TaskDifficulty, EvidenceError> {
    if !v.Str? then Failure(SchemaError(WrongType(field)))
    else if v.text == Basic.Text() then Success(Basic)
    else if v.text == Standard.Text() then Success(Standard)
    else if v.text == Advanced.Text() then Success(Advanced)
    else if v.text == Expert.Text() then Success(Expert)
    else Failure(SchemaError(NotInEnum(field)))
  }

  datatype RawDimension = RawDimension(dimension: string, difficulty: string, rationaleKey: string, hardFloor: bool)

  /** Reads the dimension quadruples that `values` consists of. */
  function RawDimensions(values: seq<Scalar>): (r: Result<seq<RawDimension>, EvidenceError>)
    requires |values| % 4 == 0
    ensures r.Success? ==> 4 * |r.value| == |values|
  {
    if values == [] then Success([])
    else if !values[0].Str? then Failure(SchemaError(WrongType(Dimension)))
    else if !values[1].Str? then Failure(SchemaError(WrongType(DimensionDifficulty)))
    else if !values[2].Str? then Failure(SchemaError(WrongType(RationaleKey)))
    else if !values[3].Bool? then Failure(SchemaError(WrongType(HardFloor)))
    else
      var rest :- RawDimensions(values[4..]);
      Success([RawDimension(values[0].text, values[1].text, values[2].text, values[3].flag)] + rest)
  }

  function RawKeys(raw: seq<RawDimension>): seq<string> {
    seq(|raw|, i requires 0 <= i < |raw| => raw[i].rationaleKey)
  }

  predicate SameDimension(raw: RawDimension, d: DimensionResult) {
    && raw.dimension == d.dimension.Text() && raw.difficulty == d.difficulty.Text()
    && raw.rationaleKey == d.rationaleKey && raw.hardFloor == d.hardFloor
  }

  /** The first type complaint about the scalars outside the dimensions. */
  function ShapeError(head: seq<Scalar>, tail: seq<Scalar>): Option<EvidenceError>
    requires |head| == 7 && |tail| == 5
  {
    if head[0] != Str(SCHEMA_VERSION) then Some(SchemaError(WrongValue(SchemaVersion)))
    else if tail[3] != Str(POLICY_VERSION) then Some(SchemaError(WrongValue(PolicyVersion)))
    else if !head[3].Int? then Some(SchemaError(WrongType(Revision)))
    else if !head[1].Str? then Some(SchemaError(WrongType(AssessmentId)))
    else if !head[2].Str? then Some(SchemaError(WrongType(TaskId)))
    else if !tail[0].Str? then Some(SchemaError(WrongType(OverrideDirection)))
    else if !tail[1].Null? && !tail[1].Str? then Some(SchemaError(WrongType(OverrideReason)))
    else if !tail[2].Null? && !tail[2].Str? then Some(SchemaError(WrongType(ApprovalId)))
    else if !tail[4].Str? then Some(SchemaError(WrongType(SnapshotCommit)))
    else if !IsCommit(tail[4].text) then Some(SchemaError(CommitFormat))
    else None
  }

  function TextOf(v: Scalar): string {
    if v.Str? then v.text else ""
  }

  function NumberOf(v: Scalar): int {
    if v.Int? then v.number else 0
  }

  function OptionOf(v: Scalar): Option<string> {
    if v.Str? then Some(v.text) else None
  }

  /** The parsed values as they fall into the document's three parts. */
  function RebuildParts(policy: Policy, head: seq<Scalar>, dimensions: seq<Scalar>, tail: seq<Scalar>)
    : Result<Evidence, EvidenceError>
    requires |head| == 7 && |dimensions| % 4 == 0 && |tail| == 5
  {
    var shape := ShapeError(head, tail);
    if shape.Some? then Failure(shape.value)
    else
      var raw :- RawDimensions(dimensions);
      var minimum :- DifficultyOf(head[4], MinimumDifficulty);
      var recommended :- DifficultyOf(head[5], RecommendedDifficulty);
      var selected :- DifficultyOf(head[6], SelectedDifficulty);
      match Assess(policy, TextOf(head[1]), TextOf(head[2]), NumberOf(head[3]), RawKeys(raw), Some(selected),
                   OptionOf(tail[1]), OptionOf(tail[2]))
      case Failure(_) => Failure(SchemaError(AssessmentInvariant))
      case Success(a) =>
        if a.minimum != minimum then Failure(SchemaError(WrongValue(MinimumDifficulty)))
        else if a.recommended != recommended then Failure(SchemaError(WrongValue(RecommendedDifficulty)))
        else if a.direction.Text() != TextOf(tail[0]) then Failure(SchemaError(WrongValue(OverrideDirection)))
        else if |a.dimensionResults| != |raw|
             || exists i :: 0 <= i < |raw| && !SameDimension(raw[i], a.dimensionResults[i])
        then Failure(SchemaError(WrongValue(DimensionResultList)))
        else Success(Evidence(a, TextOf(tail[4])))
  }

  function Rebuild(policy: Policy, values: seq<Scalar>): Result<Evidence, EvidenceError>
    requires |values| == 40
  {
    RebuildParts(policy, values[..7], values[7..35], values[35..])
  }

  /** `_parse_document` followed by `_rebuild_assessment`. */
  function Read(policy: Policy, data: string): Result<Evidence, EvidenceError> {
    var lines :- TextLines(data);
    var values :- ParseLines(Layout(), lines);
    ParsedCount(lines, values);
    Rebuild(policy, values)
  }

  /** `decode_difficulty_assessment_evidence`, with its final comparison against the re-encoding. */
  function Decode(policy: Policy, data: string): Result<Evidence, EvidenceError> {
    var e :- Read(policy, data);
    var again :- Encode(policy, e);
    if again != data then Failure(SchemaError(NoncanonicalEncoding)) else Success(e)
  }

  /** The decoder as it runs: lines, cursor loop, rebuilding, and the final comparison. */
  method DecodeEvidence(policy: Policy, data: string) returns (r: Result<Evidence, EvidenceError>)
    ensures r == Decode(policy, data)
  {
    hide Layout, Rebuild, Encode, TextLines, ParseLines;
    var lines := TextLines(data);
    if lines.Failure? {
      return Failure(lines.error);
    }
    var values := ReadLines(Layout(), lines.value);
    if values.Failure? {
      return Failure(values.error);
    }
    ParsedCount(lines.value, values.value);
    var e := Rebuild(policy, values.value);
    if e.Failure? {
      return e;
    }
    var again := Encode(policy, e.value);
    if again.Failure? {
      return Failure(again.error);
    }
    return if again.value != data then Failure(SchemaError(NoncanonicalEncoding)) else e;
  }
}
