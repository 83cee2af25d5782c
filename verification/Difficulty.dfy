/** The deterministic difficulty policy of `difficulty_assessor.py`. */
module Difficulty {
  import opened Wrappers
  import opened Texts

  datatype TaskDifficulty = Basic | Standard | Advanced | Expert {

    function Index(): nat {
      match this case Basic => 0 case Standard => 1 case Advanced => 2 case Expert => 3
    }

    function Text(): (s: string) {
      match this case Basic => "basic" case Standard => "standard" case Advanced => "advanced" case Expert => "expert"
    }
  }

  datatype Dimension =
    | ModificationScope | RequirementClarity | StateConcurrency | PublicContract
    | FailureImpact | RollbackComplexity | DependencyConflict
  {
    function Text(): string {
      match this
      case ModificationScope => "modification_scope"
      case RequirementClarity => "requirement_clarity"
      case StateConcurrency => "state_concurrency"
      case PublicContract => "public_contract"
      case FailureImpact => "failure_impact"
      case RollbackComplexity => "rollback_complexity"
      case DependencyConflict => "dependency_conflict"
    }
  }

  /** The order in which the seven rationale keys must be supplied. */
  const DIMENSION_ORDER: seq<Dimension> :=
    [ModificationScope, RequirementClarity, StateConcurrency, PublicContract,
     FailureImpact, RollbackComplexity, DependencyConflict]

  datatype DimensionResult =
    DimensionResult(dimension: Dimension, difficulty: TaskDifficulty, rationaleKey: string, hardFloor: bool)

  datatype Direction = NoOverride | Up | Down {
    function Text(): string {
      match this case NoOverride => "none" case Up => "up" case Down => "down"
    }
  }

  datatype Assessment = Assessment(
    assessmentId: string,
    taskId: string,
    revision: int,
    minimum: TaskDifficulty,
    recommended: TaskDifficulty,
    selected: TaskDifficulty,
    dimensionResults: seq<DimensionResult>,
    direction: Direction,
    overrideReason: Option<string>,
    approvalId: Option<string>)

  datatype InputField = AssessmentIdInput | TaskIdInput | RationaleKeyInput | OverrideReasonInput | ApprovalIdInput

  datatype AssessmentError =
    | BlankOrWrapped(field: InputField) | HasControlCharacter(field: InputField)
    | AssessmentIdFormat | RevisionRange | RationaleKeysCount | RationaleKeyUnknown | RationaleDimensionOrder
    | ApprovalIdFormat | SelectedBelowMinimum | OverrideFieldsWithoutDownwardOverride
    | DownwardOverrideReason | DownwardOverrideApproval

  datatype PolicyRow = PolicyRow(key: string, dimension: Dimension, difficulty: TaskDifficulty, hardFloor: bool)

  /** The frozen table of rationale keys and the reasons accepted for a downward override.  Everything below holds
      for every table; `PolicyTable.AGENTDESK` is the one the source ships. */
  datatype Policy = Policy(rows: seq<PolicyRow>, overrideReasons: seq<string>)

  /** The first complaint `_clean_string` would raise about `s`, if any. */
  function CleanString(s: string, field: InputField): Option<AssessmentError> {
    if s == "" || IsSpace(s[0]) || IsSpace(s[|s| - 1]) then Some(BlankOrWrapped(field))
    else if '\r' in s || '\n' in s || '\0' in s then Some(HasControlCharacter(field))
    else None
  }

  predicate IsAlnum(c: char) { '0' <= c <= '9' || 'A' <= c <= 'Z' || 'a' <= c <= 'z' }

  /** `ASM-[A-Za-z0-9][A-Za-z0-9._-]*`. */
  predicate IsAssessmentId(s: string) {
    && |s| >= 5 && s[..4] == "ASM-" && IsAlnum(s[4])
    && forall i :: 5 <= i < |s| ==> IsAlnum(s[i]) || s[i] == '.' || s[i] == '_' || s[i] == '-'
  }

  function ResultOf(row: PolicyRow): DimensionResult {
    DimensionResult(row.dimension, row.difficulty, row.key, row.hardFloor)
  }

  /** The first row of the table that carries `key`. */
  function PolicyFor(key: string, table: seq<PolicyRow>): (row: Option<PolicyRow>)
    ensures row.Some? ==> row.value in table && row.value.key == key
    ensures row.None? ==> forall r :: r in table ==> r.key != key
  {
    if table == [] then None
    else if table[0].key == key then Some(table[0])
    else PolicyFor(key, table[1..])
  }

  /** Results for `keys`, whose first key must belong to dimension number `index`. */
  function DimensionResultsFrom(policy: Policy, keys: seq<string>, index: nat)
    : (r: Result<seq<DimensionResult>, AssessmentError>)
    requires index + |keys| == |DIMENSION_ORDER|
    ensures r.Success? ==>
      && |r.value| == |keys|
      && (forall i :: 0 <= i < |keys| ==> r.value[i].rationaleKey == keys[i])
      && (forall i :: 0 <= i < |keys| ==> r.value[i].dimension == DIMENSION_ORDER[index + i])
    decreases |keys|
  {
    if keys == [] then Success([])
    else
      match CleanString(keys[0], RationaleKeyInput)
      case Some(e) => Failure(e)
      case None =>
        match PolicyFor(keys[0], policy.rows)
        case None => Failure(RationaleKeyUnknown)
        case Some(row) =>
          if row.dimension != DIMENSION_ORDER[index] then Failure(RationaleDimensionOrder)
          else
            var rest :- DimensionResultsFrom(policy, keys[1..], index + 1);
            Success([ResultOf(row)] + rest)
  }

  /** The largest difficulty in `values`, and `Basic` when there is none. */
  function Maximum(values: seq<TaskDifficulty>): (m: TaskDifficulty)
    ensures m == Basic || m in values
    ensures forall v :: v in values ==> v.Index() <= m.Index()
  {
    if values == [] then Basic
    else
      var rest := Maximum(values[..|values| - 1]);
      if values[|values| - 1].Index() > rest.Index() then values[|values| - 1] else rest
  }

  /** The accumulating loop of `_maximum_difficulty`. */
  method MaximumDifficulty(values: seq<TaskDifficulty>) returns (maximum: TaskDifficulty)
    ensures maximum == Maximum(values)
  {
    maximum := Basic;
    for i := 0 to |values|
      invariant maximum == Maximum(values[..i])
    {
      assert values[..i + 1][..i] == values[..i];
      if values[i].Index() > maximum.Index() {
        maximum := values[i];
      }
    }
    assert values[..|values|] == values;
  }

  function Prefixed<T, E>(front: seq<T>, r: Result<seq<T>, E>): Result<seq<T>, E> {
    match r
    case Success(back) => Success(front + back)
    case Failure(e) => Failure(e)
  }

  lemma PrefixedPrefixed<T, E>(a: seq<T>, b: seq<T>, r: Result<seq<T>, E>)
    ensures Prefixed(a, Prefixed(b, r)) == Prefixed(a + b, r)
  {
    if r.Success? {
      assert a + (b + r.value) == (a + b) + r.value;
    }
  }

  /** What the loop does with key number `i`. */
  lemma DimensionResultAt(policy: Policy, keys: seq<string>, i: nat)
    requires |keys| == |DIMENSION_ORDER| && i < |keys|
    ensures
      var clean := CleanString(keys[i], RationaleKeyInput);
      var found := PolicyFor(keys[i], policy.rows);
      DimensionResultsFrom(policy, keys[i..], i) ==
        if clean.Some? then Failure(clean.value)
        else if found.None? then Failure(RationaleKeyUnknown)
        else if found.value.dimension != DIMENSION_ORDER[i] then Failure(RationaleDimensionOrder)
        else Prefixed([ResultOf(found.value)], DimensionResultsFrom(policy, keys[i + 1..], i + 1))
  {
    assert keys[i..][0] == keys[i] && keys[i..][1..] == keys[i + 1..];
  }

  /** The accumulating loop of `_validated_dimension_results`. */
  method ValidatedDimensionResults(policy: Policy, keys: seq<string>)
    returns (r: Result<seq<DimensionResult>, AssessmentError>)
    ensures |keys| != |DIMENSION_ORDER| ==> r == Failure(RationaleKeysCount)
    ensures |keys| == |DIMENSION_ORDER| ==> r == DimensionResultsFrom(policy, keys, 0)
  {
    if |keys| != |DIMENSION_ORDER| {
      return Failure(RationaleKeysCount);
    }
    var results := [];
    assert keys[0..] == keys;
    ghost var expected := DimensionResultsFrom(policy, keys, 0);
    assert expected.Success? ==> [] + expected.value == expected.value;
    hide CleanString, PolicyFor;
    for i := 0 to |keys|
      invariant expected == Prefixed(results, DimensionResultsFrom(policy, keys[i..], i))
    {
      DimensionResultAt(policy, keys, i);
      var clean := CleanString(keys[i], RationaleKeyInput);
      if clean.Some? {
        return Failure(clean.value);
      }
      var found := PolicyFor(keys[i], policy.rows);
      if found.None? {
        return Failure(RationaleKeyUnknown);
      }
      var row := found.value;
      if row.dimension != DIMENSION_ORDER[i] {
        return Failure(RationaleDimensionOrder);
      }
      PrefixedPrefixed(results, [ResultOf(row)], DimensionResultsFrom(policy, keys[i + 1..], i + 1));
      results := results + [ResultOf(row)];
    }
    assert results + [] == results;
    return Success(results);
  }

  function Difficulties(results: seq<DimensionResult>): seq<TaskDifficulty> {
    seq(|results|, i requires 0 <= i < |results| => results[i].difficulty)
  }

  function HardFloors(results: seq<DimensionResult>): (r: seq<TaskDifficulty>)
    ensures forall d :: d in r <==> exists i :: 0 <= i < |results| && results[i].hardFloor && results[i].difficulty == d
  {
    if results == [] then []
    else (if results[0].hardFloor then [results[0].difficulty] else []) + HardFloors(results[1..])
  }

  function OptionalString(s: Option<string>, field: InputField): Option<AssessmentError> {
    if s.None? then None else CleanString(s.value, field)
  }

  function ApprovalIdError(s: Option<string>): Option<AssessmentError> {
    if s.None? then None
    else if |s.value| < 4 || s.value[..4] != "APR-" || |s.value| == 4 then Some(ApprovalIdFormat)
    else None
  }

  /** The checks on the plain inputs, in the order the source makes them; the dimension results when all pass. */
  function ValidatedInputs(policy: Policy, assessmentId: string, taskId: string, revision: int, keys: seq<string>,
                           reason: Option<string>, approval: Option<string>)
    : (r: Result<seq<DimensionResult>, AssessmentError>)
    ensures r.Success? ==> |keys| == |DIMENSION_ORDER| && r == DimensionResultsFrom(policy, keys, 0)
  {
    var idClean := CleanString(assessmentId, AssessmentIdInput);
    var taskClean := CleanString(taskId, TaskIdInput);
    if idClean.Some? then Failure(idClean.value)
    else if !IsAssessmentId(assessmentId) then Failure(AssessmentIdFormat)
    else if taskClean.Some? then Failure(taskClean.value)
    else if revision < 1 then Failure(RevisionRange)
    else if |keys| != |DIMENSION_ORDER| then Failure(RationaleKeysCount)
    else
      var results :- DimensionResultsFrom(policy, keys, 0);
      var reasonClean := OptionalString(reason, OverrideReasonInput);
      var approvalClean := OptionalString(approval, ApprovalIdInput);
      if reasonClean.Some? then Failure(reasonClean.value)
      else if approvalClean.Some? then Failure(approvalClean.value)
      else if ApprovalIdError(approval).Some? then Failure(ApprovalIdError(approval).value)
      else Success(results)
  }

  /** `assess_task_difficulty` with a selected difficulty (or `None` to take the recommendation). */
  function Assess(policy: Policy, assessmentId: string, taskId: string, revision: int, keys: seq<string>,
                  selectedInput: Option<TaskDifficulty>, reason: Option<string>, approval: Option<string>)
    : Result<Assessment, AssessmentError>
  {
    var results :- ValidatedInputs(policy, assessmentId, taskId, revision, keys, reason, approval);
    var minimum := Maximum(HardFloors(results));
    var recommended := Maximum(Difficulties(results));
    var selected := if selectedInput.Some? then selectedInput.value else recommended;
    if selected.Index() < minimum.Index() then Failure(SelectedBelowMinimum)
    else if selected == recommended || selected.Index() > recommended.Index() then
      if reason.Some? || approval.Some? then Failure(OverrideFieldsWithoutDownwardOverride)
      else Success(Assessment(assessmentId, taskId, revision, minimum, recommended, selected, results,
                              if selected == recommended then NoOverride else Up, None, None))
    else if reason.None? || reason.value !in policy.overrideReasons then Failure(DownwardOverrideReason)
    else if approval.None? then Failure(DownwardOverrideApproval)
    else Success(Assessment(assessmentId, taskId, revision, minimum, recommended, selected, results,
                            Down, reason, approval))
  }

  /** An accepted selection never undercuts a hard floor, and a downward override is the only assessment that
      carries a reason and an approval. */
  lemma AssessmentRespectsPolicy(policy: Policy, assessmentId: string, taskId: string, revision: int, keys: seq<string>,
                                 selectedInput: Option<TaskDifficulty>, reason: Option<string>, approval: Option<string>)
    requires Assess(policy, assessmentId, taskId, revision, keys, selectedInput, reason, approval).Success?
    ensures
      var a := Assess(policy, assessmentId, taskId, revision, keys, selectedInput, reason, approval).value;
      && (forall d :: d in a.dimensionResults && d.hardFloor ==> d.difficulty.Index() <= a.selected.Index())
      && (forall d :: d in a.dimensionResults ==> d.difficulty.Index() <= a.recommended.Index())
      && (exists d :: d in a.dimensionResults && d.difficulty == a.recommended)
      && a.minimum.Index() <= a.recommended.Index()
      && (a.direction == Down <==> a.selected.Index() < a.recommended.Index())
      && (a.direction == Up <==> a.selected.Index() > a.recommended.Index())
      && (a.overrideReason.Some? <==> a.direction == Down)
      && (a.approvalId.Some? <==> a.direction == Down)
  {
    hide ValidatedInputs, Maximum, HardFloors, Difficulties;
    var a := Assess(policy, assessmentId, taskId, revision, keys, selectedInput, reason, approval).value;
    RecommendedAttained(a.dimensionResults);
  }

  lemma RecommendedAttained(results: seq<DimensionResult>)
    requires results != []
    ensures forall d :: d in results ==> d.difficulty.Index() <= Maximum(Difficulties(results)).Index()
    ensures exists d :: d in results && d.difficulty == Maximum(Difficulties(results))
    ensures forall d :: d in results && d.hardFloor ==> d.difficulty.Index() <= Maximum(HardFloors(results)).Index()
    ensures Maximum(HardFloors(results)).Index() <= Maximum(Difficulties(results)).Index()
  {
    var all := Difficulties(results);
    forall d | d in results ensures d.difficulty in all {
      var i :| 0 <= i < |results| && results[i] == d;
      assert all[i] == d.difficulty;
    }
    assert all[0] in all;
    var i :| 0 <= i < |all| && all[i] == Maximum(all);
    assert results[i] in results;
  }
}
