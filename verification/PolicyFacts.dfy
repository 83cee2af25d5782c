/** What the shipped policy allows: its hard floors by name, and exactly which assessments pass (`difficulty_assessor.py`). */
module PolicyFacts {
  import opened Wrappers
  import opened Texts
  import opened Difficulty
  import opened PolicyTable
  import EvidenceExample

  /** The keys below which no selection may go, and where they hold it. */
  function FloorOf(key: string): Option<TaskDifficulty> {
    if key == "concurrency.lock_cas" then Some(Advanced)
    else if key == "concurrency.cross_process_recovery" then Some(Expert)
    else if key == "contract.breaking_migration" then Some(Expert)
    else if key == "impact.security_boundary" then Some(Expert)
    else if key == "impact.data_corruption" then Some(Expert)
    else if key == "rollback.irreversible" then Some(Expert)
    else None
  }

  predicate FloorFits(row: PolicyRow) { FloorOf(row.key) == if row.hardFloor then Some(row.difficulty) else None }

  lemma ScopeFloors(i: nat)
    requires i < 4
    ensures |ROWS| == 29 && FloorFits(ROWS[i])
  {
  }

  lemma ClarityFloors(i: nat)
    requires 4 <= i < 8
    ensures |ROWS| == 29 && FloorFits(ROWS[i])
  {
  }

  lemma ConcurrencyFloors(i: nat)
    requires 8 <= i < 12
    ensures |ROWS| == 29 && FloorFits(ROWS[i])
  {
  }

  lemma ContractFloors(i: nat)
    requires 12 <= i < 16
    ensures |ROWS| == 29 && FloorFits(ROWS[i])
  {
  }

  lemma ImpactFloors(i: nat)
    requires 16 <= i < 21
    ensures |ROWS| == 29 && FloorFits(ROWS[i])
  {
  }

  lemma RollbackFloors(i: nat)
    requires 21 <= i < 25
    ensures |ROWS| == 29 && FloorFits(ROWS[i])
  {
  }

  lemma DependencyFloors(i: nat)
    requires 25 <= i < 29
    ensures |ROWS| == 29 && FloorFits(ROWS[i])
  {
  }

  // ---- The rows ---------------------------------------------------------------------------------------------------

  /** The prefix that the keys of a dimension share. */
  function PrefixOf(d: Difficulty.Dimension): string {
    match d
    case ModificationScope => "scope."
    case RequirementClarity => "clarity."
    case StateConcurrency => "concurrency."
    case PublicContract => "contract."
    case FailureImpact => "impact."
    case RollbackComplexity => "rollback."
    case DependencyConflict => "dependency."
  }

  /** Each dimension runs from basic to expert; a failure can have an expert's impact in two ways. */
  function LevelOf(i: nat): nat { if i < 20 then i % 4 else if i == 20 then 3 else (i - 21) % 4 }

  predicate RowFits(i: nat, n: nat)
    requires i < |ROWS| && n < 7
  {
    var row := ROWS[i];
    && row.dimension == DIMENSION_ORDER[n] && row.difficulty.Index() == LevelOf(i)
    && PrefixOf(row.dimension) <= row.key
  }

  predicate RowReads(i: nat) { i < |ROWS| && EvidenceExample.IsKeyText(ROWS[i].key) }

  predicate KeysDiffer(i: nat, j: nat) { i < j < |ROWS| && ROWS[i].key != ROWS[j].key }

  lemma ScopeRow(i: nat)
    requires i < 4
    ensures |ROWS| == 29 && RowFits(i, 0)
  {
  }

  lemma ScopeKeys(i: nat, j: nat)
    requires i < j < 4
    ensures KeysDiffer(i, j)
  {
  }

  lemma ClarityRow(i: nat)
    requires 4 <= i < 8
    ensures |ROWS| == 29 && RowFits(i, 1)
  {
  }

  lemma ClarityKeys(i: nat, j: nat)
    requires 4 <= i < j < 8
    ensures KeysDiffer(i, j)
  {
  }

  lemma ConcurrencyRow(i: nat)
    requires 8 <= i < 12
    ensures |ROWS| == 29 && RowFits(i, 2)
  {
  }

  lemma ConcurrencyKeys(i: nat, j: nat)
    requires 8 <= i < j < 12
    ensures KeysDiffer(i, j)
  {
  }

  lemma ContractRow(i: nat)
    requires 12 <= i < 16
    ensures |ROWS| == 29 && RowFits(i, 3)
  {
  }

  lemma ContractKeys(i: nat, j: nat)
    requires 12 <= i < j < 16
    ensures KeysDiffer(i, j)
  {
  }

  lemma ImpactRow(i: nat)
    requires 16 <= i < 21
    ensures |ROWS| == 29 && RowFits(i, 4)
  {
  }

  lemma ImpactKeys(i: nat, j: nat)
    requires 16 <= i < j < 21
    ensures KeysDiffer(i, j)
  {
  }

  lemma RollbackRow(i: nat)
    requires 21 <= i < 25
    ensures |ROWS| == 29 && RowFits(i, 5)
  {
  }

  lemma RollbackKeys(i: nat, j: nat)
    requires 21 <= i < j < 25
    ensures KeysDiffer(i, j)
  {
  }

  lemma DependencyRow(i: nat)
    requires 25 <= i < 29
    ensures |ROWS| == 29 && RowFits(i, 6)
  {
  }

  lemma DependencyKeys(i: nat, j: nat)
    requires 25 <= i < j < 29
    ensures KeysDiffer(i, j)
  {
  }

  lemma ScopeTexts()
    ensures EvidenceExample.IsKeyText("scope.bounded")
    ensures EvidenceExample.IsKeyText("scope.single_module")
    ensures EvidenceExample.IsKeyText("scope.cross_module")
    ensures EvidenceExample.IsKeyText("scope.architecture")
  {
  }

  lemma ScopeReads(i: nat)
    requires i < 4
    ensures RowReads(i)
  {
    hide EvidenceExample.IsKeyText;
    ScopeTexts();
  }

  lemma ClarityTexts()
    ensures EvidenceExample.IsKeyText("clarity.explicit")
    ensures EvidenceExample.IsKeyText("clarity.known_pattern")
    ensures EvidenceExample.IsKeyText("clarity.ambiguous_constraints")
    ensures EvidenceExample.IsKeyText("clarity.open_decision")
  {
  }

  lemma ClarityReads(i: nat)
    requires 4 <= i < 8
    ensures RowReads(i)
  {
    hide EvidenceExample.IsKeyText;
    ClarityTexts();
  }

  lemma ConcurrencyTexts()
    ensures EvidenceExample.IsKeyText("concurrency.single_writer")
    ensures EvidenceExample.IsKeyText("concurrency.shared_state")
    ensures EvidenceExample.IsKeyText("concurrency.lock_cas")
    ensures EvidenceExample.IsKeyText("concurrency.cross_process_recovery")
  {
  }

  lemma ConcurrencyReads(i: nat)
    requires 8 <= i < 12
    ensures RowReads(i)
  {
    hide EvidenceExample.IsKeyText;
    ConcurrencyTexts();
  }

  lemma ContractTexts()
    ensures EvidenceExample.IsKeyText("contract.internal")
    ensures EvidenceExample.IsKeyText("contract.additive")
    ensures EvidenceExample.IsKeyText("contract.compatibility_sensitive")
    ensures EvidenceExample.IsKeyText("contract.breaking_migration")
  {
  }

  lemma ContractReads(i: nat)
    requires 12 <= i < 16
    ensures RowReads(i)
  {
    hide EvidenceExample.IsKeyText;
    ContractTexts();
  }

  lemma ImpactTexts()
    ensures EvidenceExample.IsKeyText("impact.informational")
    ensures EvidenceExample.IsKeyText("impact.local_failure")
    ensures EvidenceExample.IsKeyText("impact.service_degradation")
  {
  }

  lemma HardImpactTexts()
    ensures EvidenceExample.IsKeyText("impact.security_boundary")
    ensures EvidenceExample.IsKeyText("impact.data_corruption")
  {
  }

  lemma ImpactReads(i: nat)
    requires 16 <= i < 21
    ensures RowReads(i)
  {
    hide EvidenceExample.IsKeyText;
    ImpactTexts();
    HardImpactTexts();
  }

  lemma RollbackTexts()
    ensures EvidenceExample.IsKeyText("rollback.simple")
    ensures EvidenceExample.IsKeyText("rollback.tested")
    ensures EvidenceExample.IsKeyText("rollback.multi_step")
    ensures EvidenceExample.IsKeyText("rollback.irreversible")
  {
  }

  lemma RollbackReads(i: nat)
    requires 21 <= i < 25
    ensures RowReads(i)
  {
    hide EvidenceExample.IsKeyText;
    RollbackTexts();
  }

  lemma DependencyTexts()
    ensures EvidenceExample.IsKeyText("dependency.none")
    ensures EvidenceExample.IsKeyText("dependency.known")
    ensures EvidenceExample.IsKeyText("dependency.cross_repository")
    ensures EvidenceExample.IsKeyText("dependency.unresolved")
  {
  }

  lemma DependencyReads(i: nat)
    requires 25 <= i < 29
    ensures RowReads(i)
  {
    hide EvidenceExample.IsKeyText;
    DependencyTexts();
  }

  /** The dimension of row number `i`. */
  function GroupOf(i: nat): (n: nat)
    ensures n < 7
  {
    if i < 4 then 0 else if i < 8 then 1 else if i < 12 then 2 else if i < 16 then 3 else if i < 21 then 4 else if i < 25 then 5 else 6
  }

  predicate RowSound(i: nat)
    requires i < |ROWS|
  {
    RowFits(i, GroupOf(i)) && RowReads(i) && FloorFits(ROWS[i])
  }

  lemma RowIsSound(i: nat)
    requires i < 29
    ensures |ROWS| == 29 && RowSound(i)
  {
    hide ROWS, RowFits, RowReads, FloorFits;
    if i < 4 {
      ScopeRow(i);
      ScopeReads(i);
      ScopeFloors(i);
    } else if i < 8 {
      ClarityRow(i);
      ClarityReads(i);
      ClarityFloors(i);
    } else if i < 12 {
      ConcurrencyRow(i);
      ConcurrencyReads(i);
      ConcurrencyFloors(i);
    } else {
      LaterRowIsSound(i);
    }
  }

  lemma LaterRowIsSound(i: nat)
    requires 12 <= i < 29
    ensures |ROWS| == 29 && RowSound(i)
  {
    hide ROWS, RowFits, RowReads, FloorFits;
    if i < 16 {
      ContractRow(i);
      ContractReads(i);
      ContractFloors(i);
    } else if i < 21 {
      ImpactRow(i);
      ImpactReads(i);
      ImpactFloors(i);
    } else if i < 25 {
      RollbackRow(i);
      RollbackReads(i);
      RollbackFloors(i);
    } else {
      DependencyRow(i);
      DependencyReads(i);
      DependencyFloors(i);
    }
  }

  lemma OnePrefix(key: string, d: Difficulty.Dimension, e: Difficulty.Dimension)
    requires PrefixOf(d) <= key && PrefixOf(e) <= key
    ensures d == e
  {
    FirstLetters(key, d);
    FirstLetters(key, e);
    hide PrefixOf;
  }

  lemma FirstLetters(key: string, d: Difficulty.Dimension)
    requires PrefixOf(d) <= key
    ensures |key| >= 6
    ensures match d
      case ModificationScope => key[0] == 's'
      case RequirementClarity => key[0] == 'c' && key[1] == 'l'
      case StateConcurrency => key[0] == 'c' && key[1] == 'o' && key[3] == 'c'
      case PublicContract => key[0] == 'c' && key[1] == 'o' && key[3] == 't'
      case FailureImpact => key[0] == 'i'
      case RollbackComplexity => key[0] == 'r'
      case DependencyConflict => key[0] == 'd'
  {
  }

  lemma DistinctDimensions(m: nat, n: nat)
    requires m < 7 && n < 7 && DIMENSION_ORDER[m] == DIMENSION_ORDER[n]
    ensures m == n
  {
  }

  lemma KeysDistinct(i: nat, j: nat)
    requires i < j < 29
    ensures |ROWS| == 29 && ROWS[i].key != ROWS[j].key
  {
    hide ROWS, PrefixOf, DIMENSION_ORDER, RowReads, FloorFits;
    RowIsSound(i);
    RowIsSound(j);
    if ROWS[i].key == ROWS[j].key {
      OnePrefix(ROWS[i].key, ROWS[i].dimension, ROWS[j].dimension);
      DistinctDimensions(GroupOf(i), GroupOf(j));
      SameGroup(i, j);
    }
  }

  lemma SameGroup(i: nat, j: nat)
    requires i < j < 29 && GroupOf(i) == GroupOf(j)
    ensures KeysDiffer(i, j)
  {
    hide ROWS, KeysDiffer;
    if j < 4 { ScopeKeys(i, j); }
    else if j < 8 { ClarityKeys(i, j); }
    else if j < 12 { ConcurrencyKeys(i, j); }
    else if j < 16 { ContractKeys(i, j); }
    else if j < 21 { ImpactKeys(i, j); }
    else if j < 25 { RollbackKeys(i, j); }
    else { DependencyKeys(i, j); }
  }

  /** Every key of the table is found, as its own row. */
  lemma Lookup(i: nat)
    requires i < 29
    ensures |ROWS| == 29 && PolicyFor(ROWS[i].key, ROWS) == Some(ROWS[i])
  {
    hide ROWS, PolicyFor, RowSound;
    RowIsSound(i);
    forall j: nat | j < i ensures ROWS[j].key != ROWS[i].key { KeysDistinct(j, i); }
    EvidenceExample.FirstRow(ROWS[i].key, ROWS, i);
  }

  // ---- The dimension results --------------------------------------------------------------------------------------

  /** Row number `i` of dimension number `n` carries the key. */
  predicate Names(i: nat, key: string, n: nat) { i < |ROWS| && ROWS[i].key == key && GroupOf(i) == n }

  ghost predicate IsKnown(key: string, n: nat) { exists i: nat :: Names(i, key, n) }

  lemma ShippedRow(key: string)
    ensures PolicyFor(key, ROWS).Some? ==> exists i: nat :: i < 29 && Names(i, key, GroupOf(i)) && ROWS[i] == PolicyFor(key, ROWS).value
    ensures PolicyFor(key, ROWS).None? ==> forall i: nat, n :: !Names(i, key, n)
  {
    assert |ROWS| == 29;
    hide ROWS;
    if PolicyFor(key, ROWS).Some? {
      var i :| 0 <= i < |ROWS| && ROWS[i] == PolicyFor(key, ROWS).value;
      assert Names(i, key, GroupOf(i));
    }
  }

  /** What the loop makes of one key: a known key of the dimension becomes the result of its row. */
  lemma OneKey(key: string, n: nat, i: nat)
    requires n < 7 && Names(i, key, n)
    ensures CleanString(key, RationaleKeyInput) == None
    ensures PolicyFor(key, ROWS) == Some(ROWS[i]) && ROWS[i].dimension == DIMENSION_ORDER[n]
  {
    assert |ROWS| == 29;
    hide ROWS, PolicyFor, DIMENSION_ORDER, FloorFits, EvidenceExample.IsKeyText, CleanString;
    RowIsSound(i);
    Lookup(i);
    EvidenceExample.KeyIsClean(key);
  }

  lemma UnknownKey(key: string, n: nat)
    requires n < 7 && !IsKnown(key, n)
    ensures PolicyFor(key, ROWS).Some? ==> PolicyFor(key, ROWS).value.dimension != DIMENSION_ORDER[n]
  {
    assert |DIMENSION_ORDER| == 7;
    hide ROWS, PolicyFor, DIMENSION_ORDER, FloorFits, EvidenceExample.IsKeyText;
    ShippedRow(key);
    if PolicyFor(key, ROWS).Some? {
      var i: nat :| i < 29 && Names(i, key, GroupOf(i)) && ROWS[i] == PolicyFor(key, ROWS).value;
      RowIsSound(i);
      if ROWS[i].dimension == DIMENSION_ORDER[n] { DistinctDimensions(GroupOf(i), n); }
    }
  }

  ghost predicate ResultFits(d: DimensionResult, key: string, n: nat) {
    exists i: nat :: Names(i, key, n) && d == ResultOf(ROWS[i])
  }

  /** What the shipped policy makes of one key, if anything. */
  ghost predicate Becomes(key: string, n: nat, d: DimensionResult)
    requires n < |DIMENSION_ORDER|
  {
    && CleanString(key, RationaleKeyInput).None? && PolicyFor(key, ROWS).Some?
    && PolicyFor(key, ROWS).value.dimension == DIMENSION_ORDER[n] && d == ResultOf(PolicyFor(key, ROWS).value)
  }

  lemma BecomesExactly(key: string, n: nat) returns (d: DimensionResult)
    requires n < 7
    ensures |DIMENSION_ORDER| == 7 && (Becomes(key, n, d) <==> IsKnown(key, n))
    ensures Becomes(key, n, d) ==> ResultFits(d, key, n)
    ensures forall c :: Becomes(key, n, c) ==> c == d
  {
    assert |DIMENSION_ORDER| == 7;
    hide ROWS, PolicyFor, DIMENSION_ORDER, CleanString;
    d := DimensionResult(ModificationScope, Basic, "", false);
    if IsKnown(key, n) {
      var i: nat :| Names(i, key, n);
      OneKey(key, n, i);
      d := ResultOf(ROWS[i]);
      assert ResultFits(d, key, n);
    } else {
      UnknownKey(key, n);
    }
  }

  lemma KeyAt(keys: seq<string>, n: nat)
    requires |keys| == |DIMENSION_ORDER| && n < |keys|
    ensures var all, rest := DimensionResultsFrom(AGENTDESK, keys[n..], n), DimensionResultsFrom(AGENTDESK, keys[n + 1..], n + 1);
      && (forall d :: Becomes(keys[n], n, d) ==> all == Difficulty.Prefixed([d], rest))
      && ((forall d :: !Becomes(keys[n], n, d)) ==> all.Failure?)
  {
    DimensionResultAt(AGENTDESK, keys, n);
    hide DimensionResultsFrom, ROWS, PolicyFor, DIMENSION_ORDER, CleanString;
    if PolicyFor(keys[n], ROWS).Some? {
      assert forall d :: Becomes(keys[n], n, d) ==> d == ResultOf(PolicyFor(keys[n], ROWS).value);
      assert Becomes(keys[n], n, ResultOf(PolicyFor(keys[n], ROWS).value)) || forall d :: !Becomes(keys[n], n, d);
    }
  }

  /** Every key from number `n` on is a key of its dimension. */
  ghost predicate AllKnown(keys: seq<string>, n: nat) { forall k: nat :: n <= k < |keys| ==> IsKnown(keys[k], k) }

  /** Each result is that of a row with that key. */
  ghost predicate AllFit(results: seq<DimensionResult>, keys: seq<string>, n: nat) {
    n + |results| == |keys| && forall k: nat :: n <= k < |keys| ==> ResultFits(results[k - n], keys[k], k)
  }

  lemma KnownCons(keys: seq<string>, n: nat)
    requires n < |keys|
    ensures AllKnown(keys, n) <==> IsKnown(keys[n], n) && AllKnown(keys, n + 1)
  {
    hide IsKnown;
  }

  lemma FitCons(d: DimensionResult, rest: seq<DimensionResult>, keys: seq<string>, n: nat)
    requires n < |keys| && ResultFits(d, keys[n], n) && AllFit(rest, keys, n + 1)
    ensures AllFit([d] + rest, keys, n)
  {
    hide ResultFits;
    forall k: nat | n <= k < |keys| ensures ResultFits(([d] + rest)[k - n], keys[k], k) {
      if k > n { assert ([d] + rest)[k - n] == rest[k - (n + 1)]; }
    }
  }

  /** Seven keys are accepted exactly if each is a key of its dimension, and each gives the result of its row. */
  lemma {:induction false} KeysExactly(keys: seq<string>, n: nat)
    requires |keys| == |DIMENSION_ORDER| && n <= |keys|
    ensures DimensionResultsFrom(AGENTDESK, keys[n..], n).Success? <==> AllKnown(keys, n)
    ensures AllKnown(keys, n) ==> AllFit(DimensionResultsFrom(AGENTDESK, keys[n..], n).value, keys, n)
    decreases |keys| - n
  {
    assert |DIMENSION_ORDER| == 7;
    hide AGENTDESK, DIMENSION_ORDER, DimensionResultsFrom, AllFit, AllKnown, IsKnown, ResultFits, Becomes;
    if n == |keys| {
      NoKeys(keys);
    } else {
      KnownCons(keys, n);
      var d := BecomesExactly(keys[n], n);
      KeyAt(keys, n);
      KeysExactly(keys, n + 1);
      if AllKnown(keys, n) {
        FitCons(d, DimensionResultsFrom(AGENTDESK, keys[n + 1..], n + 1).value, keys, n);
      }
    }
  }

  lemma NoKeys(keys: seq<string>)
    requires |keys| == |DIMENSION_ORDER|
    ensures DimensionResultsFrom(AGENTDESK, keys[|keys|..], |keys|) == Success([])
    ensures AllKnown(keys, |keys|) && AllFit([], keys, |keys|)
  {
  }

  // ---- What follows from the keys ---------------------------------------------------------------------------------

  predicate HoldsExpert(keys: seq<string>) {
    || "concurrency.cross_process_recovery" in keys || "contract.breaking_migration" in keys || "impact.security_boundary" in keys
    || "impact.data_corruption" in keys || "rollback.irreversible" in keys
  }

  /** The hard floor under a selection. */
  function FloorOfKeys(keys: seq<string>): TaskDifficulty {
    if HoldsExpert(keys) then Expert else if "concurrency.lock_cas" in keys then Advanced else Basic
  }

  /** A key with this floor is among them. */
  predicate Holds(keys: seq<string>, d: TaskDifficulty) { exists k :: 0 <= k < |keys| && FloorOf(keys[k]) == Some(d) }

  lemma FloorsHold(keys: seq<string>)
    ensures Holds(keys, Expert) <==> HoldsExpert(keys)
    ensures Holds(keys, Advanced) <==> "concurrency.lock_cas" in keys
    ensures !Holds(keys, Standard) && !Holds(keys, Basic)
  {
  }

  lemma FloorOfResult(d: DimensionResult, key: string, n: nat)
    requires ResultFits(d, key, n)
    ensures FloorOf(key) == if d.hardFloor then Some(d.difficulty) else None
  {
    assert |ROWS| == 29;
    hide ROWS, FloorOf, RowFits, RowReads;
    var i: nat :| Names(i, key, n) && d == ResultOf(ROWS[i]);
    RowIsSound(i);
  }

  lemma FloorsAre(results: seq<DimensionResult>, keys: seq<string>, d: TaskDifficulty)
    requires AllFit(results, keys, 0)
    ensures d in HardFloors(results) <==> Holds(keys, d)
  {
    hide ResultFits, FloorOf, HardFloors;
    forall k: nat | k < |keys| ensures FloorOf(keys[k]) == if results[k].hardFloor then Some(results[k].difficulty) else None {
      assert ResultFits(results[k - 0], keys[k], k);
      FloorOfResult(results[k], keys[k], k);
    }
  }

  lemma MinimumIs(results: seq<DimensionResult>, keys: seq<string>)
    requires AllFit(results, keys, 0)
    ensures Maximum(HardFloors(results)) == FloorOfKeys(keys)
  {
    hide AllFit, FloorOf, HardFloors, Holds, HoldsExpert, Maximum;
    FloorsAre(results, keys, Basic);
    FloorsAre(results, keys, Standard);
    FloorsAre(results, keys, Advanced);
    FloorsAre(results, keys, Expert);
    FloorsHold(keys);
  }

  /** Some key stands in a row of this level. */
  ghost predicate Rated(keys: seq<string>, level: nat) {
    exists k: nat, i: nat :: k < |keys| && Names(i, keys[k], k) && LevelOf(i) == level
  }

  /** The highest level that a key stands for. */
  ghost predicate IsHighest(keys: seq<string>, level: nat) {
    Rated(keys, level) && forall l: nat :: Rated(keys, l) ==> l <= level
  }

  lemma LevelOfResult(d: DimensionResult, key: string, n: nat, i: nat)
    requires ResultFits(d, key, n) && Names(i, key, n)
    ensures d.difficulty.Index() == LevelOf(i)
  {
    assert |ROWS| == 29;
    hide ROWS, FloorFits, RowReads;
    var j: nat :| Names(j, key, n) && d == ResultOf(ROWS[j]);
    RowIsSound(j);
    if i < j { KeysDistinct(i, j); } else if j < i { KeysDistinct(j, i); }
  }

  lemma RecommendedIs(results: seq<DimensionResult>, keys: seq<string>)
    requires |keys| == 7 && AllFit(results, keys, 0)
    ensures IsHighest(keys, Maximum(Difficulties(results)).Index())
  {
    var top := Maximum(Difficulties(results));
    RecommendedAttained(results);
    hide ROWS, Maximum, LevelOf, TaskDifficulty.Index;
    forall k: nat, i: nat | k < |keys| && Names(i, keys[k], k) ensures LevelOf(i) <= top.Index() {
      assert ResultFits(results[k - 0], keys[k], k);
      LevelOfResult(results[k], keys[k], k, i);
      assert results[k] in results;
    }
    var d :| d in results && d.difficulty == top;
    var k: nat :| k < |results| && results[k] == d;
    assert ResultFits(results[k - 0], keys[k], k);
    var i: nat :| Names(i, keys[k], k) && d == ResultOf(ROWS[i]);
    LevelOfResult(d, keys[k], k, i);
    assert Rated(keys, top.Index());
  }

  // ---- Whole assessments ------------------------------------------------------------------------------------------

  /** Not empty, no white space at either end, and no line feed, carriage return or null character. */
  predicate IsClean(s: string) {
    && |s| > 0 && !IsSpace(s[0]) && !IsSpace(s[|s| - 1])
    && forall i :: 0 <= i < |s| ==> s[i] != '\n' && s[i] != '\r' && s[i] != '\0'
  }

  predicate IsLetterOrDigit(c: char) { 'a' <= c <= 'z' || 'A' <= c <= 'Z' || '0' <= c <= '9' }

  /** `ASM-`, a letter or digit, and then letters, digits, full stops, underscores and hyphens. */
  predicate IsAssessmentName(s: string) {
    && |s| > 4 && s[0] == 'A' && s[1] == 'S' && s[2] == 'M' && s[3] == '-' && IsLetterOrDigit(s[4])
    && forall i :: 4 < i < |s| ==> IsLetterOrDigit(s[i]) || s[i] == '.' || s[i] == '_' || s[i] == '-'
  }

  /** `APR-` and something after it. */
  predicate IsApprovalName(s: string) { |s| > 4 && s[0] == 'A' && s[1] == 'P' && s[2] == 'R' && s[3] == '-' }

  ghost predicate InputsFit(id: string, task: string, revision: int, keys: seq<string>, reason: Option<string>,
                            approval: Option<string>)
  {
    && IsAssessmentName(id) && IsClean(task) && revision >= 1 && |keys| == 7 && AllKnown(keys, 0)
    && (reason.Some? ==> IsClean(reason.value))
    && (approval.Some? ==> IsClean(approval.value) && IsApprovalName(approval.value))
  }

  lemma CleanExactly(s: string, field: InputField)
    ensures CleanString(s, field) == None <==> IsClean(s)
  {
  }

  lemma NameExactly(s: string)
    ensures IsAssessmentId(s) <==> IsAssessmentName(s)
  {
    if |s| >= 5 {
      assert s[..4] == [s[0], s[1], s[2], s[3]];
    }
  }

  lemma NameIsClean(s: string)
    requires IsAssessmentName(s)
    ensures IsClean(s)
  {
  }

  lemma ApprovalExactly(s: string)
    ensures ApprovalIdError(Some(s)) == None <==> IsApprovalName(s)
  {
    if |s| >= 4 {
      assert s[..4] == [s[0], s[1], s[2], s[3]];
    }
  }

  lemma OptionalExactly(s: Option<string>, field: InputField)
    ensures OptionalString(s, field) == None <==> (s.Some? ==> IsClean(s.value))
  {
    hide CleanString, IsClean;
    if s.Some? { CleanExactly(s.value, field); }
  }

  /** The inputs pass exactly if they fit, and then the dimension results are those of the keys. */
  lemma InputsExactly(id: string, task: string, revision: int, keys: seq<string>, reason: Option<string>,
                      approval: Option<string>)
    ensures ValidatedInputs(AGENTDESK, id, task, revision, keys, reason, approval).Success?
      <==> InputsFit(id, task, revision, keys, reason, approval)
    ensures InputsFit(id, task, revision, keys, reason, approval) ==>
      AllFit(ValidatedInputs(AGENTDESK, id, task, revision, keys, reason, approval).value, keys, 0)
  {
    assert |DIMENSION_ORDER| == 7;
    hide AGENTDESK, DIMENSION_ORDER, CleanString, IsClean, IsAssessmentId, IsAssessmentName, IsApprovalName, ApprovalIdError, AllKnown,
      AllFit, OptionalString, DimensionResultsFrom;
    CleanExactly(id, AssessmentIdInput);
    CleanExactly(task, TaskIdInput);
    NameExactly(id);
    if IsAssessmentName(id) { NameIsClean(id); }
    OptionalExactly(reason, OverrideReasonInput);
    OptionalExactly(approval, ApprovalIdInput);
    if approval.Some? { ApprovalExactly(approval.value); } else { NoApproval(); }
    if |keys| == 7 {
      KeysExactly(keys, 0);
      assert keys[0..] == keys;
    }
  }

  lemma NoApproval()
    ensures ApprovalIdError(None) == None
  {
  }

  /** The four reasons for a downward override. */
  predicate IsReason(s: string) {
    s == "pm_scope_calibration" || s == "pm_known_pattern" || s == "pm_bounded_failure_impact" || s == "pm_reviewed_rollback"
  }

  lemma ReasonsAre(s: string)
    ensures s in REASONS <==> IsReason(s)
  {
  }

  /** Every assessment under the shipped policy.  The minimum is read off the hard floors by name and the recommendation is
      the highest level of the keys; a selection below the minimum is refused whatever is approved, one below the
      recommendation needs one of the four reasons and an approval, and any other must name neither. */
  lemma AssessExactly(id: string, task: string, revision: int, keys: seq<string>, choice: Option<TaskDifficulty>,
                      reason: Option<string>, approval: Option<string>)
    returns (top: TaskDifficulty, results: seq<DimensionResult>)
    ensures var r := Assess(AGENTDESK, id, task, revision, keys, choice, reason, approval);
      if !InputsFit(id, task, revision, keys, reason, approval) then r.Failure?
      else
        var floor := FloorOfKeys(keys);
        var selected := if choice.Some? then choice.value else top;
        && IsHighest(keys, top.Index()) && AllFit(results, keys, 0)
        && if selected.Index() < floor.Index() then r == Failure(SelectedBelowMinimum)
           else if selected.Index() < top.Index() then
             if reason.None? || !IsReason(reason.value) then r == Failure(DownwardOverrideReason)
             else if approval.None? then r == Failure(DownwardOverrideApproval)
             else r == Success(Assessment(id, task, revision, floor, top, selected, results, Down, reason, approval))
           else if reason.Some? || approval.Some? then r == Failure(OverrideFieldsWithoutDownwardOverride)
           else r == Success(Assessment(id, task, revision, floor, top, selected, results,
                                        if selected == top then NoOverride else Up, None, None))
  {
    hide ValidatedInputs, ROWS, REASONS, IsReason, InputsFit, AllFit, FloorOfKeys, Maximum, HardFloors, IsHighest;
    InputsExactly(id, task, revision, keys, reason, approval);
    top, results := Basic, [];
    if InputsFit(id, task, revision, keys, reason, approval) {
      results := ValidatedInputs(AGENTDESK, id, task, revision, keys, reason, approval).value;
      top := Maximum(Difficulties(results));
      AllAreKnown(id, task, revision, keys, reason, approval);
      MinimumIs(results, keys);
      RecommendedIs(results, keys);
      if reason.Some? { ReasonsAre(reason.value); }
      hide Difficulties;
    }
  }

  lemma ExpertIsHighest(keys: seq<string>, top: TaskDifficulty)
    requires IsHighest(keys, top.Index()) && HoldsExpert(keys) && |keys| == 7 && AllKnown(keys, 0)
    ensures top == Expert
  {
    hide HoldsExpert, FloorOf, ROWS, LevelOf;
    FloorsHold(keys);
    var k: nat :| k < |keys| && FloorOf(keys[k]) == Some(Expert);
    var i: nat :| Names(i, keys[k], k);
    ExpertRow(keys[k], k, i);
    assert Rated(keys, 3);
  }

  lemma ExpertRow(key: string, n: nat, i: nat)
    requires Names(i, key, n) && FloorOf(key) == Some(Expert)
    ensures LevelOf(i) == 3
  {
    assert |ROWS| == 29;
    hide ROWS, FloorOf;
    RowIsSound(i);
  }

  /** With data corruption, a security boundary, a breaking migration, recovery across processes or an irreversible rollback
      among the keys, the only assessment there is selects expert, and no approval changes that. */
  lemma NothingBelowExpert(id: string, task: string, revision: int, keys: seq<string>, choice: Option<TaskDifficulty>,
                           reason: Option<string>, approval: Option<string>)
    requires HoldsExpert(keys)
    ensures var r := Assess(AGENTDESK, id, task, revision, keys, choice, reason, approval);
      && (r.Success? <==> InputsFit(id, task, revision, keys, reason, approval) && (choice == None || choice == Some(Expert))
                          && reason == None && approval == None)
      && (r.Success? ==> r.value.minimum == r.value.recommended == r.value.selected == Expert && r.value.direction == NoOverride)
      && (InputsFit(id, task, revision, keys, reason, approval) && choice.Some? && choice != Some(Expert) ==>
            r == Failure(SelectedBelowMinimum))
  {
    hide Assess, InputsFit, AllFit, IsHighest, HoldsExpert;
    var top, results := AssessExactly(id, task, revision, keys, choice, reason, approval);
    if InputsFit(id, task, revision, keys, reason, approval) {
      AllAreKnown(id, task, revision, keys, reason, approval);
      ExpertIsHighest(keys, top);
    }
  }

  lemma AllAreKnown(id: string, task: string, revision: int, keys: seq<string>, reason: Option<string>, approval: Option<string>)
    requires InputsFit(id, task, revision, keys, reason, approval)
    ensures |keys| == 7 && AllKnown(keys, 0)
  {
  }
}
