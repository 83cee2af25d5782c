/** What the text of an existing event has to say for a gated replay to take an approval from it
    (`_validate_state_event_schema`, `_extract_approval_guard_from_existing_event`). */
module ReplayFacts {
  import opened Wrappers
  import opened Texts
  import opened Approvals
  import opened Ledger
  import opened Events
  import opened EventReader
  import EventLines
  import EventReading

  /** The fourteen keys that every event has, apart from its guards. */
  function CommonKeys(): set<Key> {
    {SchemaVersionKey, EventIdKey, EventTypeKey, TaskIdKey, RevisionKey, AttemptKey, DispatchIdKey, FromStateKey, ToStateKey,
     LeaseEpochKey, ActorRoleKey, OccurredAtKey, SourceMessageKey, EvidenceRefsKey}
  }

  /** What an event of this type may have besides. */
  function FurtherKeys(eventType: Value): set<Key> {
    if eventType == Words("TASK_DISPATCHED") then {PayloadDigestKey}
    else if eventType == Words("DISPATCH_FAILED") then {FailureKindKey}
    else if eventType == Words("CHANGE_INTEGRATED") then
      {AcceptedCommitKey, IntegratedCommitKey, EquivalenceMethodKey, EquivalenceResultKey, EquivalenceEvidenceKey}
    else {}
  }

  predicate HasWords(s: Reading, k: Key) { k in s.top && s.top[k].Words? }

  predicate IsHexDigest(s: string) {
    && |s| == 71 && s[0] == 's' && s[1] == 'h' && s[2] == 'a' && s[3] == '2' && s[4] == '5' && s[5] == '6' && s[6] == ':'
    && forall i :: 7 <= i < 71 ==> '0' <= s[i] <= '9' || 'a' <= s[i] <= 'f'
  }

  predicate IsFailure(s: string) {
    s in ["dispatch_start_failed", "worker_failed", "worker_output_failed", "delivery_transition_failed"]
  }

  predicate IsEventName(s: string) {
    && |s| > 4 && s[0] == 'E' && s[1] == 'V' && s[2] == 'T' && s[3] == '-' && forall i :: 0 <= i < |s| ==> s[i] != '\n'
  }

  predicate IsWhole(g: GuardMap) {
    g.checked != None && g.reference != None && g.name != None && g.result != None && g.inputs != None
  }

  /** The keys are those of its type, and no others. */
  predicate KeysFit(s: Reading) {
    && !s.extra && CommonKeys() <= s.top.Keys && s.top.Keys <= CommonKeys() + FurtherKeys(s.top[EventTypeKey])
  }

  /** The values are of their kinds. */
  predicate ValuesFit(s: Reading)
    requires CommonKeys() <= s.top.Keys
  {
    && s.top[SchemaVersionKey] == Words("agentdesk.state-event/v2")
    && s.top[EventIdKey].Words? && IsEventName(s.top[EventIdKey].text)
    && s.top[RevisionKey].Number?
    && (s.top[AttemptKey].Number? || s.top[AttemptKey] == Nothing)
    && (s.top[DispatchIdKey].Words? || s.top[DispatchIdKey] == Nothing)
    && s.top[EvidenceRefsKey].Items?
    && (forall g :: g in s.guards ==> IsWhole(g))
  }

  /** A dispatch has a digest; a failure has its kind, and references. */
  predicate TypeFits(s: Reading)
    requires CommonKeys() <= s.top.Keys && s.top[EvidenceRefsKey].Items?
  {
    && (s.top[EventTypeKey] == Words("TASK_DISPATCHED") ==>
          HasWords(s, PayloadDigestKey) && IsHexDigest(s.top[PayloadDigestKey].text))
    && (s.top[EventTypeKey] == Words("DISPATCH_FAILED") ==>
          && HasWords(s, FailureKindKey) && IsFailure(s.top[FailureKindKey].text) && |s.top[EvidenceRefsKey].items| > 0
          && forall ref :: ref in s.top[EvidenceRefsKey].items ==> IsSafeText(ref))
  }

  predicate Fits(s: Reading) { KeysFit(s) && ValuesFit(s) && TypeFits(s) }

  lemma KindWords()
    ensures KindText(Dispatching) == "TASK_DISPATCHED" && KindText(Failing) == "DISPATCH_FAILED"
    ensures KindText(Integrating) == "CHANGE_INTEGRATED" && SCHEMA == "agentdesk.state-event/v2"
  {
  }

  lemma TypesDiffer()
    ensures Words("TASK_DISPATCHED") != Words("DISPATCH_FAILED") && Words("TASK_DISPATCHED") != Words("CHANGE_INTEGRATED")
    ensures Words("DISPATCH_FAILED") != Words("CHANGE_INTEGRATED")
  {
    assert "TASK_DISPATCHED"[0] == 'T' && "DISPATCH_FAILED"[0] == 'D' && "CHANGE_INTEGRATED"[0] == 'C';
  }

  lemma CommonExactly(k: Key)
    ensures IsCommon(k) <==> k in CommonKeys()
  {
  }

  lemma KnownExactly(k: Key, eventType: Value)
    ensures IsKnown(k, eventType) <==> k in CommonKeys() + FurtherKeys(eventType)
  {
    hide IsCommon, CommonKeys, KindText;
    KindWords();
    TypesDiffer();
    CommonExactly(k);
  }

  lemma KeysExactly(s: Reading)
    ensures KeysFit(s) <==>
      && (forall k: Key :: IsCommon(k) ==> k in s.top)
      && !s.extra && (forall k :: k in s.top ==> IsKnown(k, s.top[EventTypeKey]))
  {
    CommonExactly(EventTypeKey);
    assert EventTypeKey in CommonKeys();
    forall k: Key ensures IsCommon(k) <==> k in CommonKeys() { CommonExactly(k); }
    hide IsCommon, CommonKeys, IsKnown, FurtherKeys;
    if EventTypeKey in s.top {
      forall k: Key ensures IsKnown(k, s.top[EventTypeKey]) <==> k in CommonKeys() + FurtherKeys(s.top[EventTypeKey]) {
        KnownExactly(k, s.top[EventTypeKey]);
      }
    }
  }

  lemma NamesExactly(s: string)
    ensures IsEventIdText(s) <==> IsEventName(s)
    ensures IsDigestText(s) <==> IsHexDigest(s)
  {
    if |s| > 6 {
      assert s[..4] == [s[0], s[1], s[2], s[3]];
      assert s[..7] == [s[0], s[1], s[2], s[3], s[4], s[5], s[6]];
    } else if |s| > 4 {
      assert s[..4] == [s[0], s[1], s[2], s[3]];
    }
  }

  lemma FailuresExactly(s: string)
    ensures IsFailureText(s) <==> IsFailure(s)
  {
  }

  lemma SomeAreCommon(s: Reading)
    requires CommonKeys() <= s.top.Keys
    ensures SchemaVersionKey in s.top && EventIdKey in s.top && EventTypeKey in s.top && RevisionKey in s.top
    ensures AttemptKey in s.top && DispatchIdKey in s.top && EvidenceRefsKey in s.top
  {
  }

  lemma ValuesExactly(s: Reading)
    requires CommonKeys() <= s.top.Keys
    ensures SchemaVersionKey in s.top && EventIdKey in s.top && RevisionKey in s.top
    ensures AttemptKey in s.top && DispatchIdKey in s.top && EvidenceRefsKey in s.top
    ensures ValuesFit(s) <==>
      && s.top[SchemaVersionKey] == Words(SCHEMA)
      && s.top[EventIdKey].Words? && IsEventIdText(s.top[EventIdKey].text)
      && s.top[RevisionKey].Number?
      && (s.top[AttemptKey].Nothing? || s.top[AttemptKey].Number?)
      && (s.top[DispatchIdKey].Nothing? || s.top[DispatchIdKey].Words?)
      && s.top[EvidenceRefsKey].Items?
      && (forall g :: g in s.guards ==> GuardComplete(g))
  {
    hide CommonKeys, IsEventIdText, IsEventName, SCHEMA;
    SomeAreCommon(s);
    KindWords();
    if HasWords(s, EventIdKey) { NamesExactly(s.top[EventIdKey].text); }
  }

  lemma TypeExactly(s: Reading)
    requires CommonKeys() <= s.top.Keys && s.top[EvidenceRefsKey].Items?
    ensures EventTypeKey in s.top && EvidenceRefsKey in s.top
    ensures TypeFits(s) <==>
      && (s.top[EventTypeKey] == Words(KindText(Dispatching)) ==>
            PayloadDigestKey in s.top && s.top[PayloadDigestKey].Words? && IsDigestText(s.top[PayloadDigestKey].text))
      && (s.top[EventTypeKey] == Words(KindText(Failing)) ==>
            && FailureKindKey in s.top && s.top[FailureKindKey].Words? && IsFailureText(s.top[FailureKindKey].text)
            && s.top[EvidenceRefsKey].items != [] && forall ref :: ref in s.top[EvidenceRefsKey].items ==> IsSafeText(ref))
  {
    hide CommonKeys, IsDigestText, IsHexDigest, IsFailureText, IsFailure, KindText, IsSafeText;
    SomeAreCommon(s);
    KindWords();
    if HasWords(s, PayloadDigestKey) { NamesExactly(s.top[PayloadDigestKey].text); }
    if HasWords(s, FailureKindKey) { FailuresExactly(s.top[FailureKindKey].text); }
  }

  /** An existing event meets the schema exactly if its keys, its values and what its type wants fit. */
  lemma SchemaExactly(s: Reading)
    ensures SchemaHolds(s) <==> Fits(s)
  {
    hide IsCommon, CommonKeys, IsKnown, FurtherKeys, IsEventIdText, IsDigestText, IsFailureText, KindText, SCHEMA, IsSafeText, GuardComplete,
      ValuesFit, TypeFits;
    KeysExactly(s);
    if KeysFit(s) {
      ValuesExactly(s);
      if s.top[EvidenceRefsKey].Items? { TypeExactly(s); }
      if ValuesFit(s) { ItemsFit(s); }
    }
  }

  lemma ItemsFit(s: Reading)
    requires CommonKeys() <= s.top.Keys && ValuesFit(s)
    ensures s.top[EvidenceRefsKey].Items?
  {
  }

  /** The words that stand for something else than themselves. */
  lemma WordsMean()
    ensures Coerce("null") == Some(Nothing) && Coerce("[]") == Some(Items([])) && Coerce("{}") == Some(Mapping)
  {
    hide Coerce;
    EventReading.EmptyCoerces();
    BracesMean();
  }

  lemma BracesMean()
    ensures Coerce("{}") == Some(Mapping)
  {
    StripKeeps("{}");
    EventLines.NoDigits("{}");
    EventLines.NoWord("{}");
    hide Strip, IsDigits, IsFlagWord;
    assert "{}"[0] == '{' && "[]"[0] == '[';
  }

  lemma FlagsMean()
    ensures Coerce("true") == Some(Flag(true)) && Coerce("True") == Some(Flag(true))
    ensures Coerce("false") == Some(Flag(false)) && Coerce("False") == Some(Flag(false))
  {
    StripKeeps("true");
    StripKeeps("True");
    StripKeeps("false");
    StripKeeps("False");
    hide Strip, IsDigits;
  }

  // ---- The approval -------------------------------------------------------------------------------------------------

  /** The last input of that key has this value. */
  predicate LastIs(inputs: seq<Input>, key: string, value: string) {
    exists i :: 0 <= i < |inputs| && IsLast(inputs, i, key) && inputs[i].value == Some(value)
  }

  predicate IsLast(inputs: seq<Input>, i: nat, key: string)
    requires i < |inputs|
  {
    inputs[i].key == key && forall j :: i < j < |inputs| ==> inputs[j].key != key
  }

  lemma {:induction false} LastExactly(inputs: seq<Input>, key: string, value: string)
    requires value != ""
    ensures LastInput(inputs, key) == value <==> LastIs(inputs, key, value)
  {
    if inputs != [] {
      var n := |inputs| - 1;
      LastExactly(inputs[..n], key, value);
      if inputs[n].key == key {
        assert IsLast(inputs, n, key);
      } else {
        if LastIs(inputs[..n], key, value) {
          var i :| 0 <= i < n && IsLast(inputs[..n], i, key) && inputs[..n][i].value == Some(value);
          assert IsLast(inputs, i, key);
        }
        if LastIs(inputs, key, value) {
          var i :| 0 <= i < |inputs| && IsLast(inputs, i, key) && inputs[i].value == Some(value);
          assert IsLast(inputs[..n], i, key);
        }
      }
    }
  }

  predicate IsGate(g: GuardMap) { g.name == Some(Words("approval_gate")) }

  /** Exactly one of the guards is an approval's, the one at `i`. */
  predicate OnlyGate(gs: seq<GuardMap>, i: nat)
    requires i < |gs|
  {
    IsGate(gs[i]) && forall j :: 0 <= j < |gs| && j != i ==> !IsGate(gs[j])
  }

  lemma {:induction false} NoGate(gs: seq<GuardMap>)
    ensures ApprovalMaps(gs) == [] <==> forall j :: 0 <= j < |gs| ==> !IsGate(gs[j])
  {
    if gs != [] {
      NoGate(gs[1..]);
      assert forall j :: 0 < j < |gs| ==> gs[j] == gs[1..][j - 1];
    }
  }

  lemma {:induction false} OneGate(gs: seq<GuardMap>, g: GuardMap)
    ensures ApprovalMaps(gs) == [g] <==> exists i :: 0 <= i < |gs| && gs[i] == g && OnlyGate(gs, i)
  {
    if gs != [] {
      var rest := gs[1..];
      OneGate(rest, g);
      NoGate(rest);
      assert forall j :: 0 < j < |gs| ==> gs[j] == rest[j - 1];
      if IsGate(gs[0]) {
        if ApprovalMaps(rest) == [] { assert OnlyGate(gs, 0); }
      } else {
        if i: nat :| i < |rest| && rest[i] == g && OnlyGate(rest, i) { assert OnlyGate(gs, i + 1); }
        if i: nat :| i < |gs| && gs[i] == g && OnlyGate(gs, i) { assert OnlyGate(rest, i - 1); }
      }
    }
  }

  /** A passed approval guard of this scope, with these texts. */
  predicate Says(g: GuardMap, scope: string, approvalId: string, checkedAt: string, evidence: string) {
    && LastIs(Inputs(g), "scope", scope) && LastIs(Inputs(g), "approval_id", approvalId)
    && |approvalId| >= 4 && approvalId[0] == 'A' && approvalId[1] == 'P' && approvalId[2] == 'R' && approvalId[3] == '-'
    && '\U{0000}' !in approvalId && '\U{000D}' !in approvalId
    && g.result == Some(Words("passed")) && g.checked == Some(Words(checkedAt)) && g.reference == Some(Words(evidence))
    && IsTimeText(checkedAt) && IsSafeText(evidence) && evidence != ""
  }

  lemma PrefixExactly(s: string)
    ensures "APR-" <= s <==> |s| >= 4 && s[0] == 'A' && s[1] == 'P' && s[2] == 'R' && s[3] == '-'
  {
    if |s| >= 4 { assert s[..4] == [s[0], s[1], s[2], s[3]]; }
  }

  lemma OneExtracts(gs: seq<GuardMap>, g: GuardMap, scope: string, approvalId: string, checkedAt: string, evidence: string)
    requires scope != "" && ApprovalMaps(gs) == [g]
    ensures Extract(gs, scope) == Recovered(approvalId, checkedAt, evidence) <==> Says(g, scope, approvalId, checkedAt, evidence)
  {
    assert IsTimeText(checkedAt) ==> checkedAt != "";
    hide ApprovalMaps, LastInput, LastIs, IsTimeText, IsSafeText;
    PrefixExactly(approvalId);
    LastExactly(Inputs(g), "scope", scope);
    if approvalId != "" { LastExactly(Inputs(g), "approval_id", approvalId); }
    hide Inputs;
  }

  /** The approval that is taken from the guards: that of the only approval guard, if it says all this. */
  ghost predicate Carries(gs: seq<GuardMap>, scope: string, approvalId: string, checkedAt: string, evidence: string) {
    exists i :: 0 <= i < |gs| && OnlyGate(gs, i) && Says(gs[i], scope, approvalId, checkedAt, evidence)
  }

  lemma ExtractExactly(gs: seq<GuardMap>, scope: string, approvalId: string, checkedAt: string, evidence: string)
    requires scope != ""
    ensures Extract(gs, scope) == Recovered(approvalId, checkedAt, evidence)
      <==> Carries(gs, scope, approvalId, checkedAt, evidence)
  {
    hide Says, IsGate, OnlyGate;
    if |ApprovalMaps(gs)| == 1 {
      var g := ApprovalMaps(gs)[0];
      assert ApprovalMaps(gs) == [g];
      OneExtracts(gs, g, scope, approvalId, checkedAt, evidence);
      OneGate(gs, g);
      forall i | 0 <= i < |gs| && OnlyGate(gs, i) ensures gs[i] == g { OneGate(gs, gs[i]); }
      hide Extract, ApprovalMaps;
    } else {
      forall i | 0 <= i < |gs| ensures !OnlyGate(gs, i) { OneGate(gs, gs[i]); }
      hide ApprovalMaps;
    }
  }

  /** From a text an approval is taken exactly if it can be read, fits the schema, and carries the approval. */
  lemma RecoversExactly(text: string, scope: Scope, approvalId: string, checkedAt: string, evidence: string)
    ensures RecoverGuard(text, scope) == Recovered(approvalId, checkedAt, evidence) <==>
      && Parse(text).Some? && Fits(Parse(text).value)
      && Carries(Parse(text).value.guards, ScopeText(scope), approvalId, checkedAt, evidence)
  {
    assert ScopeText(scope) != "";
    hide Parse, SchemaHolds, Fits, Extract, Carries, ScopeText;
    if Parse(text).Some? {
      SchemaExactly(Parse(text).value);
      ExtractExactly(Parse(text).value.guards, ScopeText(scope), approvalId, checkedAt, evidence);
    }
  }
}
