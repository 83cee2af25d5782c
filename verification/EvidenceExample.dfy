/** Evidence under the policy that `difficulty_assessor.py` ships: it encodes, reads back, and fails when cut short. */
module EvidenceExample {
  import opened Wrappers
  import opened Texts
  import opened Difficulty
  import opened PolicyTable
  import opened ScalarCodec
  import opened LineCodec
  import opened EvidenceCodec
  import opened EvidenceCanonical
  import opened EvidenceErrors
  import Decimal

  // ---- Looking up the shipped policy ------------------------------------------------------------------------------

  lemma {:induction false} FirstRow(key: string, table: seq<PolicyRow>, n: nat)
    requires n < |table| && table[n].key == key && forall i :: 0 <= i < n ==> table[i].key != key
    ensures PolicyFor(key, table) == Some(table[n])
  {
    if n > 0 {
      FirstRow(key, table[1..], n - 1);
    }
  }

  /** One letter of a key. */
  predicate HasLetter(key: string, n: nat, c: char) { n < |key| && key[n] == c }

  lemma ScopeRows(i: nat)
    requires i < 4
    ensures |ROWS| == 29 && HasLetter(ROWS[i].key, 0, 's')
  {
  }

  lemma ClarityRows(i: nat)
    requires 4 <= i < 8
    ensures |ROWS| == 29 && HasLetter(ROWS[i].key, 0, 'c') && HasLetter(ROWS[i].key, 1, 'l')
  {
  }

  lemma ConcurrencyRows(i: nat)
    requires 8 <= i < 12
    ensures |ROWS| == 29 && HasLetter(ROWS[i].key, 0, 'c') && HasLetter(ROWS[i].key, 3, 'c')
  {
  }

  lemma ContractRows(i: nat)
    requires 12 <= i < 16
    ensures |ROWS| == 29 && HasLetter(ROWS[i].key, 0, 'c')
  {
  }

  lemma ImpactRows(i: nat)
    requires 16 <= i < 21
    ensures |ROWS| == 29 && HasLetter(ROWS[i].key, 0, 'i')
  {
  }

  lemma RollbackRows(i: nat)
    requires 21 <= i < 25
    ensures |ROWS| == 29 && HasLetter(ROWS[i].key, 0, 'r')
  {
  }

  /** The first row of each dimension: the least difficulty. */
  const LEAST_ROWS: seq<nat> := [0, 4, 8, 12, 16, 21, 25]

  predicate KeyDiffers(n: nat, key: string) {
    && (0 < n ==> !HasLetter(key, 0, 's')) && (1 < n < 4 ==> HasLetter(key, 1, 'o')) && (n == 3 ==> HasLetter(key, 3, 't'))
    && (3 < n ==> !HasLetter(key, 0, 'c')) && (4 < n ==> !HasLetter(key, 0, 'i')) && (5 < n ==> !HasLetter(key, 0, 'r'))
  }

  lemma LeastKeys(n: nat)
    requires n < 7
    ensures |ROWS| == 29 && LEAST_ROWS[n] < 29 && KeyDiffers(n, ROWS[LEAST_ROWS[n]].key)
  {
    hide KeyDiffers;
    if n < 3 { FirstLeastKeys(n); } else if n < 5 { MiddleLeastKeys(n); } else { LastLeastKeys(n); }
  }

  lemma FirstLeastKeys(n: nat)
    requires n < 3
    ensures |ROWS| == 29 && LEAST_ROWS[n] < 29 && KeyDiffers(n, ROWS[LEAST_ROWS[n]].key)
  {
  }

  lemma MiddleLeastKeys(n: nat)
    requires 3 <= n < 5
    ensures |ROWS| == 29 && LEAST_ROWS[n] < 29 && KeyDiffers(n, ROWS[LEAST_ROWS[n]].key)
  {
  }

  lemma LastLeastKeys(n: nat)
    requires 5 <= n < 7
    ensures |ROWS| == 29 && LEAST_ROWS[n] < 29 && KeyDiffers(n, ROWS[LEAST_ROWS[n]].key)
  {
  }

  lemma EarlierRowsDiffer(n: nat, i: nat)
    requires n < 7 && |ROWS| == 29 && i < LEAST_ROWS[n] < 29
    ensures ROWS[i].key != ROWS[LEAST_ROWS[n]].key
  {
    LeastKeys(n);
    assert LEAST_ROWS[n] <= 25;
    hide ROWS;
    if i < 4 { ScopeRows(i); }
    else if i < 8 { ClarityRows(i); }
    else if i < 12 { ConcurrencyRows(i); }
    else if i < 16 { ContractRows(i); }
    else if i < 21 { ImpactRows(i); }
    else { RollbackRows(i); }
  }

  lemma LeastRowFound(n: nat)
    requires n < 7
    ensures |ROWS| == 29 && LEAST_ROWS[n] < 29 && PolicyFor(ROWS[LEAST_ROWS[n]].key, ROWS) == Some(ROWS[LEAST_ROWS[n]])
  {
    LeastKeys(n);
    hide ROWS;
    forall i: nat | i < LEAST_ROWS[n] ensures ROWS[i].key != ROWS[LEAST_ROWS[n]].key { EarlierRowsDiffer(n, i); }
    FirstRow(ROWS[LEAST_ROWS[n]].key, ROWS, LEAST_ROWS[n]);
  }

  // ---- The assessment they give -----------------------------------------------------------------------------------

  predicate IsKeyText(s: string) { s != "" && forall i :: 0 <= i < |s| ==> 'a' <= s[i] <= 'z' || s[i] == '.' || s[i] == '_' }

  predicate RowFits(n: nat)
    requires n < 7
  {
    && |ROWS| == 29 && LEAST_ROWS[n] < 29
    && var row := ROWS[LEAST_ROWS[n]];
       row.dimension == DIMENSION_ORDER[n] && row.difficulty == Basic && !row.hardFloor && IsKeyText(row.key)
  }

  lemma FirstRowsFit(n: nat)
    requires n < 2
    ensures RowFits(n)
  {
  }

  lemma ThirdRowFits()
    ensures RowFits(2)
  {
  }

  lemma FourthRowFits()
    ensures RowFits(3)
  {
  }

  lemma LastRowsFit(n: nat)
    requires 4 <= n < 7
    ensures RowFits(n)
  {
  }

  lemma LeastRowFits(n: nat)
    requires n < 7
    ensures RowFits(n)
  {
    hide RowFits;
    if n < 2 { FirstRowsFit(n); } else if n == 2 { ThirdRowFits(); } else if n == 3 { FourthRowFits(); } else { LastRowsFit(n); }
  }

  lemma KeyIsClean(s: string)
    requires IsKeyText(s)
    ensures CleanString(s, RationaleKeyInput) == None && AllSafe(s)
  {
  }

  function LeastResult(n: nat): DimensionResult
    requires n < 7
  {
    LeastRowFound(n);
    ResultOf(ROWS[LEAST_ROWS[n]])
  }

  function LeastResults(): (r: seq<DimensionResult>)
    ensures |r| == 7
  {
    [LeastResult(0), LeastResult(1), LeastResult(2), LeastResult(3), LeastResult(4), LeastResult(5), LeastResult(6)]
  }

  lemma LeastResultIs(n: nat)
    requires n < 7
    ensures LeastResults()[n] == LeastResult(n)
    ensures var d := LeastResult(n);
      && d.dimension == DIMENSION_ORDER[n] && d.difficulty == Basic && !d.hardFloor && IsKeyText(d.rationaleKey)
      && PolicyFor(d.rationaleKey, ROWS).Some? && ResultOf(PolicyFor(d.rationaleKey, ROWS).value) == d
  {
    hide ROWS, IsKeyText, PolicyFor, LEAST_ROWS, DIMENSION_ORDER;
    LeastResultAt(n);
    LeastRowFound(n);
    LeastRowFits(n);
  }

  lemma LeastResultAt(n: nat)
    requires n < 7
    ensures LeastResults()[n] == LeastResult(n)
  {
    hide LeastResult;
  }

  lemma {:induction false} LeastResultsFrom(n: nat)
    requires n <= 7
    ensures DimensionResultsFrom(AGENTDESK, Keys(LeastResults())[n..], n) == Success(LeastResults()[n..])
    decreases 7 - n
  {
    var keys := Keys(LeastResults());
    hide ROWS, LeastResults, PolicyFor, CleanString;
    if n == 7 {
      assert keys[7..] == [] && LeastResults()[7..] == [];
    } else {
      LeastResultIs(n);
      LeastResultsFrom(n + 1);
      DimensionResultAt(AGENTDESK, keys, n);
      KeyIsClean(keys[n]);
      assert [LeastResult(n)] + LeastResults()[n + 1..] == LeastResults()[n..];
    }
    hide LeastResult;
  }

  lemma {:induction false} AllBasic(values: seq<TaskDifficulty>)
    requires forall v :: v in values ==> v.Basic?
    ensures Maximum(values) == Basic
  {
    if values != [] {
      assert values[|values| - 1] in values;
      AllBasic(values[..|values| - 1]);
    }
  }

  lemma LeastMaxima()
    ensures Maximum(Difficulties(LeastResults())) == Basic && Maximum(HardFloors(LeastResults())) == Basic
  {
    var results := LeastResults();
    hide LeastResults, LeastResult, HardFloors, Maximum;
    forall n | 0 <= n < 7 ensures results[n].difficulty == Basic && !results[n].hardFloor { LeastResultIs(n); }
    AllBasic(Difficulties(results));
    AllBasic(HardFloors(results));
  }

  /** The least assessment of a task. */
  function Least(assessmentId: string, taskId: string, revision: int, commit: string): Evidence {
    Evidence(Assessment(assessmentId, taskId, revision, Basic, Basic, Basic, LeastResults(), NoOverride, None, None), commit)
  }

  predicate Identified(assessmentId: string, taskId: string, revision: int, commit: string) {
    && IsAssessmentId(assessmentId) && CleanString(taskId, TaskIdInput) == None && AllSafe(taskId)
    && revision >= 1 && |Decimal.Print(revision)| <= ScalarCodec.MAX_DIGITS && IsCommit(commit)
  }

  lemma AssessmentIdIsClean(s: string)
    requires IsAssessmentId(s)
    ensures CleanString(s, AssessmentIdInput) == None && AllSafe(s) && s != ""
  {
    assert s[..4][0] == s[0] && s[..4][1] == s[1] && s[..4][2] == s[2] && s[..4][3] == s[3];
    forall i | 0 <= i < |s| ensures IsAlnum(s[i]) || s[i] == '.' || s[i] == '_' || s[i] == '-' {
      assert i < 4 ==> s[..4][i] == s[i];
    }
  }

  lemma LeastIsAssessed(assessmentId: string, taskId: string, revision: int, commit: string)
    requires Identified(assessmentId, taskId, revision, commit)
    ensures ValidationError(AGENTDESK, Least(assessmentId, taskId, revision, commit)) == None
  {
    hide ROWS, LeastResults, DimensionResultsFrom, Maximum, HardFloors, Difficulties, CleanString, IsAssessmentId;
    AssessmentIdIsClean(assessmentId);
    LeastResultsFrom(0);
    assert Keys(LeastResults())[0..] == Keys(LeastResults()) && LeastResults()[0..] == LeastResults();
    LeastMaxima();
    CommitIsSafe(commit);
  }

  lemma CommitIsSafe(s: string)
    requires IsCommit(s)
    ensures s != "" && AllSafe(s)
  {
  }

  // ---- Printing it ------------------------------------------------------------------------------------------------

  predicate Prints(v: Scalar) {
    match v
    case Null => true
    case Bool(_) => true
    case Int(n) => n >= 0 && |Decimal.Print(n)| <= ScalarCodec.MAX_DIGITS
    case Str(s) => s != "" && AllSafe(s)
  }

  lemma {:induction false} LinesPrint(layout: seq<Slot>, values: seq<Scalar>)
    requires Fits(layout, values) && forall v :: v in values ==> Prints(v)
    ensures PrintLines(layout, values).Success?
  {
    if layout != [] {
      if layout[0].Header? {
        LinesPrint(layout[1..], values);
      } else {
        assert values[0] in values;
        ScalarPrints(values[0], layout[0].name);
        LinesPrint(layout[1..], values[1..]);
      }
    }
    hide PrintScalar, Prints;
  }

  lemma ScalarPrints(v: Scalar, field: FieldName)
    requires Prints(v)
    ensures PrintScalar(v, field).Success?
  {
  }

  lemma {:induction false} DimensionValuesPrint(results: seq<DimensionResult>)
    requires forall d :: d in results ==> IsKeyText(d.rationaleKey)
    ensures forall v :: v in DimensionValues(results) ==> Prints(v)
  {
    if results != [] {
      assert results[0] in results;
      DimensionValuesPrint(results[1..]);
      KeyIsClean(results[0].rationaleKey);
      DimensionTextPrints(results[0].dimension);
      DifficultyTextPrints(results[0].difficulty);
    }
    hide IsKeyText, AllSafe;
  }

  lemma DimensionTextPrints(d: Difficulty.Dimension)
    ensures AllSafe(d.Text()) && d.Text() != ""
  {
    hide AllSafe;
    if d.ModificationScope? || d.RequirementClarity? || d.StateConcurrency? {
      FirstDimensionTexts(d);
    } else {
      LastDimensionTexts(d);
    }
  }

  lemma FirstDimensionTexts(d: Difficulty.Dimension)
    requires d.ModificationScope? || d.RequirementClarity? || d.StateConcurrency?
    ensures AllSafe(d.Text()) && d.Text() != ""
  {
  }

  lemma LastDimensionTexts(d: Difficulty.Dimension)
    requires d.PublicContract? || d.FailureImpact? || d.RollbackComplexity? || d.DependencyConflict?
    ensures AllSafe(d.Text()) && d.Text() != ""
  {
  }

  lemma DifficultyTextPrints(d: TaskDifficulty)
    ensures AllSafe(d.Text()) && d.Text() != ""
  {
  }

  lemma VersionsPrint()
    ensures AllSafe(SCHEMA_VERSION) && SCHEMA_VERSION != "" && AllSafe(POLICY_VERSION) && POLICY_VERSION != ""
    ensures AllSafe(NoOverride.Text()) && NoOverride.Text() != ""
  {
  }

  lemma LeastPrints(assessmentId: string, taskId: string, revision: int, commit: string)
    requires Identified(assessmentId, taskId, revision, commit)
    ensures forall v :: v in Values(Least(assessmentId, taskId, revision, commit)) ==> Prints(v)
  {
    hide LeastResults, DimensionValues, AllSafe, IsAssessmentId, SCHEMA_VERSION, POLICY_VERSION, IsCommit, IsKeyText;
    VersionsPrint();
    AssessmentIdIsClean(assessmentId);
    DifficultyTextPrints(Basic);
    CommitIsSafe(commit);
    forall d | d in LeastResults() ensures IsKeyText(d.rationaleKey) {
      var n :| 0 <= n < 7 && LeastResults()[n] == d;
      LeastResultIs(n);
    }
    DimensionValuesPrint(LeastResults());
  }

  /** Under the shipped policy the least assessment of any identity has an encoding, which reads back as that very
      assessment, and whose first seven lines alone fail with the untyped error. */
  lemma LeastEncodes(assessmentId: string, taskId: string, revision: int, commit: string) returns (data: string)
    requires Identified(assessmentId, taskId, revision, commit)
    ensures Encode(AGENTDESK, Least(assessmentId, taskId, revision, commit)) == Success(data)
    ensures Decode(AGENTDESK, data) == Success(Least(assessmentId, taskId, revision, commit))
    ensures TextLines(data).Success? && |TextLines(data).value| >= 7
    ensures Decode(AGENTDESK, Join(TextLines(data).value[..7])) == Failure(IndexPastEnd)
  {
    hide ValidationError, Decode, TextLines, Join, Layout, Values, Fits, PrintLines, Prints, LeastResults, Identified, ROWS;
    var e := Least(assessmentId, taskId, revision, commit);
    LeastIsAssessed(assessmentId, taskId, revision, commit);
    LeastPrints(assessmentId, taskId, revision, commit);
    ValuesFit(e);
    LinesPrint(Layout(), Values(e));
    data := Encode(AGENTDESK, e).value;
    DecodeInvertsEncode(AGENTDESK, data, e);
    TruncatedFails(AGENTDESK, e, data);
  }

  function Zeros(n: nat): (s: string)
    ensures |s| == n && forall i :: 0 <= i < n ==> s[i] == '0'
  {
    if n == 0 then "" else "0" + Zeros(n - 1)
  }

  lemma ConcreteIdentity()
    ensures Identified("ASM-1", "TC-1", 1, Zeros(40))
  {
    assert "ASM-1"[..4] == "ASM-";
    hide Zeros;
  }

  /** One such identity, and the text that fails. */
  lemma ConcreteFailure() returns (data: string)
    ensures Encode(AGENTDESK, Least("ASM-1", "TC-1", 1, Zeros(40))) == Success(data)
    ensures TextLines(data).Success? && |TextLines(data).value| >= 7
    ensures Decode(AGENTDESK, Join(TextLines(data).value[..7])) == Failure(IndexPastEnd)
  {
    hide Identified, Encode, Decode, TextLines, Join, Least, Zeros;
    ConcreteIdentity();
    data := LeastEncodes("ASM-1", "TC-1", 1, Zeros(40));
  }
}
