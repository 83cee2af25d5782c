/** The bytes of the evidence document, written out. */
module EvidenceText {
  import opened Wrappers
  import opened Difficulty
  import opened PolicyTable
  import opened ScalarCodec
  import opened LineCodec
  import opened EvidenceCodec
  import opened EvidenceEncoder
  import opened EvidenceExample
  import EvidenceCanonical
  import Decimal

  // ---- Tokens -----------------------------------------------------------------------------------------------------

  /** A backslash before every backslash and every quote, and nothing else. */
  function Slashed(s: string): string {
    if s == "" then ""
    else (if s[0] == '\\' then "\\\\" else if s[0] == '"' then "\\\"" else [s[0]]) + Slashed(s[1..])
  }

  function Quoted(s: string): string { "\"" + Slashed(s) + "\"" }

  function OrNull(s: Option<string>): string { match s case None => "null" case Some(text) => Quoted(text) }

  function TrueOrFalse(flag: bool): string { match flag case true => "true" case false => "false" }

  function Token(v: Scalar): string {
    match v
    case Null => "null"
    case Bool(flag) => TrueOrFalse(flag)
    case Int(n) => if n < 0 then "" else Decimal.Print(n)
    case Str(s) => Quoted(s)
  }

  lemma {:induction false} EscapeIsSlashed(s: string)
    ensures Escape(s) == Slashed(s)
  {
    hide Escape;
    if s == "" {
      EscapeEmpty();
    } else {
      EscapeCons(s);
      EscapeIsSlashed(s[1..]);
    }
  }

  lemma EscapeEmpty()
    ensures Escape("") == ""
  {
  }

  /** What is printed, and which scalars can be: no negative numbers, none beyond Python's limit, and only texts that
      are not empty and free of control characters. */
  lemma ScalarExactly(v: Scalar, field: FieldName)
    ensures PrintScalar(v, field).Success? <==> Prints(v)
    ensures Prints(v) ==> PrintScalar(v, field) == Success(Token(v))
  {
    hide Escape, Slashed, Decimal.Print, AllSafe;
    if v.Str? {
      EscapeIsSlashed(v.text);
    }
  }

  predicate Unslashed(s: string) { forall i :: 0 <= i < |s| ==> s[i] != '\\' && s[i] != '"' }

  lemma {:induction false} PlainSlashed(s: string)
    requires Unslashed(s)
    ensures Slashed(s) == s
  {
    if s != "" {
      PlainSlashed(s[1..]);
    }
  }

  /** `n` without its last `k` decimal digits. */
  function Without(n: nat, k: nat): nat { if k == 0 then n else Without(n / 10, k - 1) }

  /** A numeral holds the decimal digits of its number, the units last. */
  lemma {:induction false} DigitsAre(n: nat, k: nat)
    requires k < |Decimal.Print(n)|
    ensures Decimal.Print(n)[|Decimal.Print(n)| - 1 - k] as int == '0' as int + Without(n, k) % 10
  {
    if k > 0 {
      DigitsAre(n / 10, k - 1);
    }
  }

  // ---- The 41 lines -----------------------------------------------------------------------------------------------

  function DifficultyWord(d: TaskDifficulty): string {
    match d case Basic => "basic" case Standard => "standard" case Advanced => "advanced" case Expert => "expert"
  }

  function DimensionWord(n: nat): string
    requires n < 7
  {
    if n == 0 then "modification_scope" else if n == 1 then "requirement_clarity" else if n == 2 then "state_concurrency"
    else if n == 3 then "public_contract" else if n == 4 then "failure_impact" else if n == 5 then "rollback_complexity"
    else "dependency_conflict"
  }

  function DirectionWord(d: Direction): string { match d case NoOverride => "none" case Up => "up" case Down => "down" }

  function HeadDocument(a: Assessment): seq<string> {
    ["schema_version: " + Quoted("agentdesk.difficulty-assessment/v1"),
     "assessment_id: " + Quoted(a.assessmentId),
     "task_id: " + Quoted(a.taskId),
     "revision: " + (if a.revision < 0 then "" else Decimal.Print(a.revision)),
     "minimum_difficulty: " + Quoted(DifficultyWord(a.minimum)),
     "recommended_difficulty: " + Quoted(DifficultyWord(a.recommended)),
     "selected_difficulty: " + Quoted(DifficultyWord(a.selected)),
     "dimension_results:"]
  }

  /** The four lines of dimension number `n`. */
  function DimensionDocument(n: nat, d: DimensionResult): seq<string>
    requires n < 7
  {
    ["  - dimension: " + Quoted(DimensionWord(n)),
     "    difficulty: " + Quoted(DifficultyWord(d.difficulty)),
     "    rationale_key: " + Quoted(d.rationaleKey),
     "    hard_floor: " + TrueOrFalse(d.hardFloor)]
  }

  function TailDocument(e: Evidence): seq<string> {
    ["override_direction: " + Quoted(DirectionWord(e.assessment.direction)),
     "override_reason: " + OrNull(e.assessment.overrideReason),
     "approval_id: " + OrNull(e.assessment.approvalId),
     "policy_version: " + Quoted("agentdesk.difficulty-policy/v1"),
     "snapshot_commit: " + Quoted(e.snapshotCommit)]
  }

  /** The dimensions from number `n` on. */
  function DimensionsDocument(n: nat, results: seq<DimensionResult>): seq<string>
    requires n + |results| == 7
    decreases |results|
  {
    if results == [] then [] else DimensionDocument(n, results[0]) + DimensionsDocument(n + 1, results[1..])
  }

  function Document(e: Evidence): seq<string>
    requires |e.assessment.dimensionResults| == 7
  {
    HeadDocument(e.assessment) + DimensionsDocument(0, e.assessment.dimensionResults) + TailDocument(e)
  }

  // ---- Line by line -----------------------------------------------------------------------------------------------

  function FieldLines(fields: seq<FieldName>, values: seq<Scalar>): seq<string>
    requires |fields| == |values|
  {
    seq(|fields|, i requires 0 <= i < |fields| => RootSlot(fields[i]).prefix + Token(values[i]))
  }

  lemma {:induction false} FieldsPrint(fields: seq<FieldName>, values: seq<Scalar>)
    requires |fields| == |values| && Fits(RootSlots(fields), values) && PrintLines(RootSlots(fields), values).Success?
    ensures PrintLines(RootSlots(fields), values).value == FieldLines(fields, values)
  {
    hide Key, Token, Prints, PrintScalar;
    if fields != [] {
      assert RootSlots(fields)[0] == RootSlot(fields[0]);
      assert RootSlots(fields)[1..] == RootSlots(fields[1..]);
      FieldsPrint(fields[1..], values[1..]);
      ScalarExactly(values[0], fields[0]);
      assert FieldLines(fields, values)
        == [RootSlot(fields[0]).prefix + Token(values[0])] + FieldLines(fields[1..], values[1..]);
    }
  }

  predicate KeyIs(field: FieldName, prefix: string) { RootSlot(field).prefix == prefix }

  lemma HeadKeys()
    ensures KeyIs(SchemaVersion, "schema_version: ") && KeyIs(AssessmentId, "assessment_id: ")
    ensures KeyIs(TaskId, "task_id: ") && KeyIs(Revision, "revision: ")
  {
  }

  lemma DifficultyKeys()
    ensures KeyIs(MinimumDifficulty, "minimum_difficulty: ") && KeyIs(RecommendedDifficulty, "recommended_difficulty: ")
    ensures KeyIs(SelectedDifficulty, "selected_difficulty: ") && ListHeader().line == "dimension_results:"
  {
  }

  lemma DimensionKeys()
    ensures DimensionSlots()[0].prefix == "  - dimension: " && DimensionSlots()[1].prefix == "    difficulty: "
    ensures DimensionSlots()[2].prefix == "    rationale_key: " && DimensionSlots()[3].prefix == "    hard_floor: "
  {
  }

  lemma TailKeys()
    ensures KeyIs(OverrideDirection, "override_direction: ") && KeyIs(OverrideReason, "override_reason: ")
    ensures KeyIs(ApprovalId, "approval_id: ") && KeyIs(PolicyVersion, "policy_version: ")
    ensures KeyIs(SnapshotCommit, "snapshot_commit: ")
  {
  }

  lemma Words(d: TaskDifficulty, x: Direction)
    ensures d.Text() == DifficultyWord(d) && x.Text() == DirectionWord(x)
  {
  }

  lemma DimensionWords(n: nat)
    requires n < 7
    ensures DIMENSION_ORDER[n].Text() == DimensionWord(n)
  {
  }

  lemma Versions()
    ensures SCHEMA_VERSION == "agentdesk.difficulty-assessment/v1" && POLICY_VERSION == "agentdesk.difficulty-policy/v1"
  {
  }

  lemma HeadIs(a: Assessment)
    requires HeadLines(a).Success? && a.revision >= 0
    ensures HeadLines(a).value == HeadDocument(a)
  {
    hide Key, RootSlot, PrintLines, Fits, TaskDifficulty.Text, Quoted, ListHeader, SCHEMA_VERSION, DifficultyWord;
    FitsFields(HEAD_FIELDS, HeadValues(a));
    FieldsPrint(HEAD_FIELDS, HeadValues(a));
    HeadKeys();
    DifficultyKeys();
    Words(a.minimum, NoOverride);
    Words(a.recommended, NoOverride);
    Words(a.selected, NoOverride);
    Versions();
  }

  lemma TailIs(e: Evidence)
    requires TailLines(e).Success?
    ensures TailLines(e).value == TailDocument(e)
  {
    hide Key, RootSlot, PrintLines, Fits, Direction.Text, Quoted, POLICY_VERSION, DirectionWord;
    FitsFields(TAIL_FIELDS, TailValues(e));
    FieldsPrint(TAIL_FIELDS, TailValues(e));
    TailKeys();
    Words(Basic, e.assessment.direction);
    Versions();
  }

  lemma {:induction false} SlotsPrint(slots: seq<Slot>, values: seq<Scalar>)
    requires Fits(slots, values) && (forall slot :: slot in slots ==> slot.Field?) && PrintLines(slots, values).Success?
    ensures |slots| == |values| == |PrintLines(slots, values).value|
    ensures forall i :: 0 <= i < |slots| ==> PrintLines(slots, values).value[i] == slots[i].prefix + Token(values[i])
  {
    hide Token, Prints, PrintScalar;
    if slots != [] {
      assert slots[0] in slots;
      SlotsPrint(slots[1..], values[1..]);
      ScalarExactly(values[0], slots[0].name);
    }
  }

  lemma QuadIs(n: nat, d: DimensionResult)
    requires n < 7 && d.dimension == DIMENSION_ORDER[n] && Quad(d).Success?
    ensures Quad(d).value == DimensionDocument(n, d)
  {
    hide Key, PrintLines, Fits, TaskDifficulty.Text, Dimension.Text, Quoted, DIMENSION_ORDER, DimensionWord, DifficultyWord;
    FitsDimension(d);
    SlotsPrint(DimensionSlots(), DimensionValues([d]));
    DimensionKeys();
    DimensionWords(n);
    Words(d.difficulty, NoOverride);
  }

  lemma {:induction false} DimensionsAre(n: nat, results: seq<DimensionResult>)
    requires n + |results| == 7 && forall i :: 0 <= i < |results| ==> results[i].dimension == DIMENSION_ORDER[n + i]
    requires DimensionLines(results).Success?
    ensures DimensionLines(results).value == DimensionsDocument(n, results)
    decreases |results|
  {
    hide Quad, DimensionDocument, DIMENSION_ORDER;
    if results != [] {
      QuadIs(n, results[0]);
      DimensionsAre(n + 1, results[1..]);
    }
  }

  lemma InOrder(policy: Policy, e: Evidence)
    requires ValidationError(policy, e).None?
    ensures |e.assessment.dimensionResults| == 7 && e.assessment.revision >= 1
    ensures forall i :: 0 <= i < 7 ==> e.assessment.dimensionResults[i].dimension == DIMENSION_ORDER[i]
  {
    hide DimensionResultsFrom;
  }

  /** Every line with its line feed. */
  function Ended(lines: seq<string>): string { if lines == [] then "" else lines[0] + ['\U{000A}'] + Ended(lines[1..]) }

  lemma {:induction false} JoinIsEnded(lines: seq<string>)
    ensures Join(lines) == Ended(lines)
  {
    if lines != [] {
      JoinIsEnded(lines[1..]);
    }
  }

  /** Exactly these bytes: if the evidence encodes, the encoding is the document written out above, each line with its
      line feed. */
  lemma DocumentIs(policy: Policy, e: Evidence, data: string)
    requires Encode(policy, e) == Success(data)
    ensures |e.assessment.dimensionResults| == 7 && data == Ended(Document(e))
  {
    hide Ended, Layout, Values, Fits, PrintLines, HeadLines, DimensionLines, TailLines, ValidationError, Join;
    hide HeadDocument, DimensionsDocument, TailDocument;
    InOrder(policy, e);
    WholeDocument(e);
    HeadIs(e.assessment);
    DimensionsAre(0, e.assessment.dimensionResults);
    TailIs(e);
    JoinIsEnded(Document(e));
  }

  lemma {:induction false} PrintsAll(layout: seq<Slot>, values: seq<Scalar>)
    requires Fits(layout, values) && PrintLines(layout, values).Success?
    ensures forall v :: v in values ==> Prints(v)
  {
    hide Prints, PrintScalar;
    if layout != [] {
      if layout[0].Header? {
        PrintsAll(layout[1..], values);
      } else {
        ScalarExactly(values[0], layout[0].name);
        PrintsAll(layout[1..], values[1..]);
      }
    }
  }

  /** Neither empty nor with a control character. */
  predicate IsWritable(s: string) { |s| > 0 && forall i :: 0 <= i < |s| ==> s[i] as int >= 32 && s[i] as int != 127 }

  predicate IsWritableOption(s: Option<string>) { s.Some? ==> IsWritable(s.value) }

  /** All texts of the evidence are, and the revision has no more digits than Python prints. */
  predicate CanBeWritten(e: Evidence) {
    var a := e.assessment;
    && IsWritable(a.assessmentId) && IsWritable(a.taskId) && a.revision >= 0 && |Decimal.Print(a.revision)| <= 4300
    && (forall i :: 0 <= i < |a.dimensionResults| ==> IsWritable(a.dimensionResults[i].rationaleKey))
    && IsWritableOption(a.overrideReason) && IsWritableOption(a.approvalId) && IsWritable(e.snapshotCommit)
  }

  lemma WritableExactly(s: string)
    ensures IsWritable(s) <==> s != "" && AllSafe(s)
  {
    forall c: char ensures IsSafeChar(c) <==> c as int >= 32 && c as int != 127 { SafeExactly(c); }
    hide IsSafeChar;
  }

  lemma SafeExactly(c: char)
    ensures IsSafeChar(c) <==> c as int >= 32 && c as int != 127
  {
  }

  lemma {:induction false} DimensionsPrintIf(results: seq<DimensionResult>)
    ensures (forall v :: v in DimensionValues(results) ==> Prints(v)) <==>
      forall i :: 0 <= i < |results| ==> IsWritable(results[i].rationaleKey)
  {
    hide AllSafe, IsWritable, Decimal.Print, Difficulty.Dimension.Text, TaskDifficulty.Text;
    if results != [] {
      var d := results[0];
      DimensionsPrintIf(results[1..]);
      WritableExactly(d.rationaleKey);
      DimensionTextPrints(d.dimension);
      DifficultyTextPrints(d.difficulty);
      var first := [Str(d.dimension.Text()), Str(d.difficulty.Text()), Str(d.rationaleKey), Bool(d.hardFloor)];
      assert DimensionValues(results) == first + DimensionValues(results[1..]);
      assert (forall v :: v in first ==> Prints(v)) <==> IsWritable(d.rationaleKey) by { assert first[2] in first; }
      hide DimensionValues, Prints;
      assert forall v :: v in DimensionValues(results) <==> v in first || v in DimensionValues(results[1..]);
      assert forall i :: 0 < i < |results| ==> results[i] == results[1..][i - 1];
    }
  }

  lemma HeadPrintsIf(a: Assessment)
    ensures (forall v :: v in HeadValues(a) ==> Prints(v)) <==>
      IsWritable(a.assessmentId) && IsWritable(a.taskId) && a.revision >= 0 && |Decimal.Print(a.revision)| <= 4300
  {
    hide AllSafe, IsWritable, Decimal.Print, TaskDifficulty.Text, SCHEMA_VERSION;
    var values := HeadValues(a);
    WritableExactly(a.assessmentId);
    WritableExactly(a.taskId);
    VersionsPrint();
    DifficultyTextPrints(a.minimum);
    DifficultyTextPrints(a.recommended);
    DifficultyTextPrints(a.selected);
    assert values[1] in values && values[2] in values && values[3] in values;
  }

  lemma DirectionPrints(d: Direction)
    ensures d.Text() != "" && AllSafe(d.Text())
  {
  }

  lemma TailPrintsIf(e: Evidence)
    ensures (forall v :: v in TailValues(e) ==> Prints(v)) <==>
      IsWritableOption(e.assessment.overrideReason) && IsWritableOption(e.assessment.approvalId) && IsWritable(e.snapshotCommit)
  {
    hide AllSafe, IsWritable, Direction.Text, POLICY_VERSION;
    var values := TailValues(e);
    if e.assessment.overrideReason.Some? { WritableExactly(e.assessment.overrideReason.value); }
    if e.assessment.approvalId.Some? { WritableExactly(e.assessment.approvalId.value); }
    WritableExactly(e.snapshotCommit);
    VersionsPrint();
    DirectionPrints(e.assessment.direction);
    assert values[1] in values && values[2] in values && values[4] in values;
  }

  lemma AllPrintIf(e: Evidence)
    ensures (forall v :: v in Values(e) ==> Prints(v)) <==> CanBeWritten(e)
  {
    hide Prints, IsWritable, HeadValues, DimensionValues, TailValues, Decimal.Print;
    HeadPrintsIf(e.assessment);
    DimensionsPrintIf(e.assessment.dimensionResults);
    TailPrintsIf(e);
    assert forall v :: v in Values(e) <==>
      v in HeadValues(e.assessment) || v in DimensionValues(e.assessment.dimensionResults) || v in TailValues(e);
  }

  /** Which evidence encodes: what the policy recomputes, if all of it can be written. */
  lemma EncodesExactly(policy: Policy, e: Evidence)
    ensures Encode(policy, e).Success? <==> ValidationError(policy, e).None? && CanBeWritten(e)
  {
    hide Layout, Values, Fits, PrintLines, ValidationError, Join, Prints, CanBeWritten;
    AllPrintIf(e);
    if ValidationError(policy, e).None? {
      SevenDimensions(policy, e);
      ValuesFit(e);
      if PrintLines(Layout(), Values(e)).Success? {
        PrintsAll(Layout(), Values(e));
      } else if forall v :: v in Values(e) ==> Prints(v) {
        LinesPrint(Layout(), Values(e));
      }
    }
  }

  /** What is refused about the text as a whole, first of all: a byte order mark, carriage returns, tabs, null characters; a
      missing or a second line feed at the end. */
  lemma TextRefused(policy: Policy, data: string)
    ensures |data| > 0 && data[0] == '\U{FEFF}' ==> Decode(policy, data) == Failure(SecurityError(Bom))
    ensures (|data| > 0 ==> data[0] != '\U{FEFF}') ==>
      && ('\U{000D}' in data ==> Decode(policy, data) == Failure(SecurityError(CarriageReturn)))
      && ('\U{000D}' !in data ==>
           && ('\U{0009}' in data ==> Decode(policy, data) == Failure(SecurityError(Tab)))
           && ('\U{0009}' !in data ==>
                && ('\U{0000}' in data ==> Decode(policy, data) == Failure(SecurityError(Nul)))
                && ('\U{0000}' !in data ==> LinesRefused(policy, data))))
  {
    hide Encode, Rebuild, ParseLines, Split;
  }

  predicate LinesRefused(policy: Policy, data: string) {
    && (|data| == 0 || data[|data| - 1] != '\U{000A}' ==> Decode(policy, data) == Failure(SchemaError(FinalLf)))
    && (|data| > 1 && data[|data| - 1] == '\U{000A}' && data[|data| - 2] == '\U{000A}' ==>
          Decode(policy, data) == Failure(SchemaError(ExtraFinalLf)))
  }

  // ---- One document -----------------------------------------------------------------------------------------------

  function InQuotes(s: string): string { "\"" + s + "\"" }

  const HEAD_TEXT := [
    "schema_version: " + InQuotes("agentdesk.difficulty-assessment/v1"),
    "assessment_id: " + InQuotes("ASM-1"),
    "task_id: " + InQuotes("TC-1"),
    "revision: 1",
    "minimum_difficulty: " + InQuotes("basic"),
    "recommended_difficulty: " + InQuotes("basic"),
    "selected_difficulty: " + InQuotes("basic"),
    "dimension_results:"]

  function BasicText(dimension: string, key: string): seq<string> {
    ["  - dimension: " + InQuotes(dimension),
     "    difficulty: " + InQuotes("basic"),
     "    rationale_key: " + InQuotes(key),
     "    hard_floor: false"]
  }

  const TAIL_TEXT := [
    "override_direction: " + InQuotes("none"),
    "override_reason: null",
    "approval_id: null",
    "policy_version: " + InQuotes("agentdesk.difficulty-policy/v1"),
    "snapshot_commit: " + InQuotes(Zeros(40))]

  /** The texts one after the other, from number `n` on. */
  function Concatenated(n: nat, texts: seq<seq<string>>): seq<string>
    requires n <= |texts|
    decreases |texts| - n
  {
    if n == |texts| then [] else texts[n] + Concatenated(n + 1, texts)
  }

  function QuadTexts(): seq<seq<string>> {
    [BasicText("modification_scope", "scope.bounded"),
     BasicText("requirement_clarity", "clarity.explicit"),
     BasicText("state_concurrency", "concurrency.single_writer"),
     BasicText("public_contract", "contract.internal"),
     BasicText("failure_impact", "impact.informational"),
     BasicText("rollback_complexity", "rollback.simple"),
     BasicText("dependency_conflict", "dependency.none")]
  }

  /** The least assessment of task TC-1: 41 lines, each with its line feed. */
  function LeastText(): string { Ended(HEAD_TEXT + Concatenated(0, QuadTexts()) + TAIL_TEXT) }

  lemma QuotedIs(s: string)
    requires Unslashed(s)
    ensures Quoted(s) == InQuotes(s)
  {
    PlainSlashed(s);
  }

  lemma SchemaLine()
    ensures "schema_version: " + Quoted("agentdesk.difficulty-assessment/v1") == HEAD_TEXT[0]
  {
    QuotedIs("agentdesk.difficulty-assessment/v1");
    hide Quoted, InQuotes;
  }

  lemma IdentityLines()
    ensures "assessment_id: " + Quoted("ASM-1") == HEAD_TEXT[1] && "task_id: " + Quoted("TC-1") == HEAD_TEXT[2]
    ensures "revision: " + Decimal.Print(1) == HEAD_TEXT[3]
  {
    QuotedIs("ASM-1");
    QuotedIs("TC-1");
    hide Quoted, InQuotes;
  }

  lemma BasicLines()
    ensures "minimum_difficulty: " + Quoted("basic") == HEAD_TEXT[4]
    ensures "recommended_difficulty: " + Quoted("basic") == HEAD_TEXT[5]
    ensures "selected_difficulty: " + Quoted("basic") == HEAD_TEXT[6]
  {
    QuotedIs("basic");
    hide Quoted, InQuotes;
  }

  lemma PolicyLine()
    ensures "policy_version: " + Quoted("agentdesk.difficulty-policy/v1") == TAIL_TEXT[3]
  {
    QuotedIs("agentdesk.difficulty-policy/v1");
    hide Quoted, InQuotes;
  }

  lemma CommitLine()
    ensures "snapshot_commit: " + Quoted(Zeros(40)) == TAIL_TEXT[4]
  {
    QuotedIs(Zeros(40));
    hide Quoted, InQuotes, Zeros;
  }

  lemma DirectionLine()
    ensures "override_direction: " + Quoted("none") == TAIL_TEXT[0]
  {
    QuotedIs("none");
    hide Quoted, InQuotes;
  }

  lemma LeastHead()
    ensures HeadDocument(Least("ASM-1", "TC-1", 1, Zeros(40)).assessment) == HEAD_TEXT
  {
    hide Quoted, InQuotes, Decimal.Print, LeastResults, Zeros;
    SchemaLine();
    IdentityLines();
    BasicLines();
  }

  lemma NullLines()
    ensures "override_reason: " + OrNull(None) == TAIL_TEXT[1] && "approval_id: " + OrNull(None) == TAIL_TEXT[2]
  {
  }

  lemma LeastTail()
    ensures TailDocument(Least("ASM-1", "TC-1", 1, Zeros(40))) == TAIL_TEXT
  {
    hide Quoted, InQuotes, OrNull, LeastResults, Zeros;
    DirectionLine();
    NullLines();
    PolicyLine();
    CommitLine();
  }

  lemma FloorLine(d: DimensionResult)
    requires !d.hardFloor
    ensures "    hard_floor: " + TrueOrFalse(d.hardFloor) == "    hard_floor: false"
  {
  }

  lemma BasicQuad(n: nat, key: string)
    requires n < 7 && Unslashed(DimensionWord(n)) && Unslashed(key)
    ensures DimensionDocument(n, DimensionResult(DIMENSION_ORDER[n], Basic, key, false)) == BasicText(DimensionWord(n), key)
  {
    var d := DimensionResult(DIMENSION_ORDER[n], Basic, key, false);
    QuotedIs(DimensionWord(n));
    QuotedIs("basic");
    QuotedIs(key);
    FloorLine(d);
    hide Quoted, InQuotes, DimensionWord, TrueOrFalse, Unslashed;
  }

  lemma FirstWords()
    ensures Unslashed("modification_scope") && Unslashed("scope.bounded")
    ensures Unslashed("requirement_clarity") && Unslashed("clarity.explicit")
    ensures Unslashed("state_concurrency") && Unslashed("concurrency.single_writer")
  {
  }

  lemma LastWords()
    ensures Unslashed("public_contract") && Unslashed("contract.internal")
    ensures Unslashed("failure_impact") && Unslashed("impact.informational")
    ensures Unslashed("rollback_complexity") && Unslashed("rollback.simple")
    ensures Unslashed("dependency_conflict") && Unslashed("dependency.none")
  {
  }

  /** The seven dimensions with the keys that stand first in the shipped table. */
  function BasicResults(): (r: seq<DimensionResult>)
    ensures |r| == 7
  {
    [DimensionResult(ModificationScope, Basic, "scope.bounded", false),
     DimensionResult(RequirementClarity, Basic, "clarity.explicit", false),
     DimensionResult(StateConcurrency, Basic, "concurrency.single_writer", false),
     DimensionResult(PublicContract, Basic, "contract.internal", false),
     DimensionResult(FailureImpact, Basic, "impact.informational", false),
     DimensionResult(RollbackComplexity, Basic, "rollback.simple", false),
     DimensionResult(DependencyConflict, Basic, "dependency.none", false)]
  }

  predicate ResultIs(n: nat, d: DimensionResult)
    requires n < 7
  {
    LeastResult(n) == d
  }

  lemma FirstResults()
    ensures ResultIs(0, BasicResults()[0]) && ResultIs(1, BasicResults()[1])
  {
    hide PolicyFor;
  }

  lemma SecondResults()
    ensures ResultIs(2, BasicResults()[2]) && ResultIs(3, BasicResults()[3])
  {
    hide PolicyFor;
  }

  lemma ThirdResults()
    ensures ResultIs(4, BasicResults()[4]) && ResultIs(5, BasicResults()[5]) && ResultIs(6, BasicResults()[6])
  {
    hide PolicyFor;
  }

  lemma LeastResultsAre()
    ensures LeastResults() == BasicResults()
  {
    hide LeastResult, BasicResults;
    assert |LeastResults()| == 7;
    FirstResults();
    SecondResults();
    ThirdResults();
  }

  lemma DimensionsFrom(n: nat, results: seq<DimensionResult>)
    requires |results| == 7 && n < 7
    ensures DimensionsDocument(n, results[n..]) == DimensionDocument(n, results[n]) + DimensionsDocument(n + 1, results[n + 1..])
  {
    hide DimensionDocument;
    assert results[n..][0] == results[n] && results[n..][1..] == results[n + 1..];
  }

  /** The text of dimension number `n`. */
  predicate QuadIsText(n: nat, dimension: string, key: string)
    requires n < 7
  {
    DimensionDocument(n, BasicResults()[n]) == BasicText(dimension, key)
  }

  lemma FirstQuads()
    ensures QuadIsText(0, "modification_scope", "scope.bounded") && QuadIsText(1, "requirement_clarity", "clarity.explicit")
    ensures QuadIsText(2, "state_concurrency", "concurrency.single_writer")
  {
    hide DimensionDocument, BasicText, Unslashed;
    FirstWords();
    BasicQuad(0, "scope.bounded");
    BasicQuad(1, "clarity.explicit");
    BasicQuad(2, "concurrency.single_writer");
  }

  lemma LastQuads()
    ensures QuadIsText(3, "public_contract", "contract.internal") && QuadIsText(4, "failure_impact", "impact.informational")
    ensures QuadIsText(5, "rollback_complexity", "rollback.simple") && QuadIsText(6, "dependency_conflict", "dependency.none")
  {
    hide DimensionDocument, BasicText, Unslashed;
    LastWords();
    BasicQuad(3, "contract.internal");
    BasicQuad(4, "impact.informational");
    BasicQuad(5, "rollback.simple");
    BasicQuad(6, "dependency.none");
  }

  lemma {:induction false} QuadsAre(n: nat, results: seq<DimensionResult>, texts: seq<seq<string>>)
    requires |results| == |texts| == 7 && n <= 7
    requires forall i :: n <= i < 7 ==> DimensionDocument(i, results[i]) == texts[i]
    ensures DimensionsDocument(n, results[n..]) == Concatenated(n, texts)
    decreases 7 - n
  {
    hide DimensionDocument;
    if n < 7 {
      DimensionsFrom(n, results);
      QuadsAre(n + 1, results, texts);
    }
  }

  lemma LeastDimensions()
    ensures DimensionsDocument(0, BasicResults()) == Concatenated(0, QuadTexts())
  {
    hide DimensionDocument, DimensionsDocument, BasicText, BasicResults;
    FirstQuads();
    LastQuads();
    QuadsAre(0, BasicResults(), QuadTexts());
    assert BasicResults()[0..] == BasicResults();
  }

  /** The bytes of that assessment are these, and these bytes are read as that assessment. */
  lemma LeastIsWritten()
    ensures Least("ASM-1", "TC-1", 1, Zeros(40)).assessment.dimensionResults == BasicResults()
    ensures Encode(AGENTDESK, Least("ASM-1", "TC-1", 1, Zeros(40))) == Success(LeastText())
    ensures Decode(AGENTDESK, LeastText()) == Success(Least("ASM-1", "TC-1", 1, Zeros(40)))
  {
    hide Encode, Decode, TextLines, Join, Zeros, Identified, HeadDocument, TailDocument, DimensionsDocument, QuadTexts, BasicResults,
      LeastResults, Ended, HEAD_TEXT, TAIL_TEXT;
    ConcreteIdentity();
    var data := LeastEncodes("ASM-1", "TC-1", 1, Zeros(40));
    DocumentIs(AGENTDESK, Least("ASM-1", "TC-1", 1, Zeros(40)), data);
    LeastResultsAre();
    LeastHead();
    LeastDimensions();
    LeastTail();
  }
}
