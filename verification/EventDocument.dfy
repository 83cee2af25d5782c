/** The text of an event file, written out: its keys in alphabetical order, each with its word for the value
    (`_serialize_state_event_mapping`, `_emit_yaml`). */
module EventDocument {
  import opened Wrappers
  import opened Texts
  import opened Approvals
  import opened Ledger
  import opened Events
  import EvidenceText
  import ScalarCodec
  import LineCodec
  import Routing
  import EventLines
  import opened RoutingFacts

  // ---- Words ------------------------------------------------------------------------------------------------------

  function StateWord(s: State): string {
    match s
    case Draft => "draft"
    case Ready => "ready"
    case Dispatched => "dispatched"
    case InProgress => "in_progress"
    case ReviewReady => "review_ready"
    case Returned => "returned"
    case Accepted => "accepted"
    case Integrated => "integrated"
    case Blocked => "blocked"
    case Cancelled => "cancelled"
    case Superseded => "superseded"
  }

  function EventWord(k: Kind): string {
    match k
    case Specification => "TASK_SPECIFIED"
    case Dispatching => "TASK_DISPATCHED"
    case Acknowledgement => "DISPATCH_ACKNOWLEDGED"
    case Submission => "DELIVERY_SUBMITTED"
    case Acceptation => "DELIVERY_ACCEPTED"
    case Return => "DELIVERY_RETURNED"
    case Requeue => "TASK_REQUEUED"
    case Integrating => "CHANGE_INTEGRATED"
    case Blocking => "TASK_BLOCKED"
    case IntegrationFailing => "INTEGRATION_FAILED"
    case Resolution => "BLOCKER_RESOLVED"
    case Rescoping => "BLOCKER_RESCOPED"
    case BlockerCancelling => "BLOCKER_CANCELLED"
    case Cancelling => "TASK_CANCELLED"
    case Superseding => "TASK_SUPERSEDED"
    case Failing => "DISPATCH_FAILED"
  }

  lemma EventWords(k: Kind)
    ensures KindText(k) == EventWord(k)
  {
  }

  lemma StateWords(s: State)
    ensures StateText(s) == StateWord(s)
  {
  }

  function ScopeWord(s: Scope): string {
    match s case DispatchScope => "dispatch" case AcceptScope => "accept" case IntegrateScope => "integrate"
  }

  lemma ScopeWords(s: Scope)
    ensures ScopeText(s) == ScopeWord(s)
  {
  }

  // ---- Quoting ----------------------------------------------------------------------------------------------------

  /** What cannot stand as it is: nothing at all, a text that starts or ends in the wrong way or has a special character,
      and the words that mean something. */
  predicate NeedsQuotes(s: string) {
    || |s| == 0 || s[0] in "{[&*!|>'\"%#@`-" || s[|s| - 1] in " \t"
    || (exists i :: 0 <= i < |s| && s[i] in "\0\r\n\t:{}[],&*?|><=!%@`#\"'\\")
    || Strip(Lower(s)) in ["true", "false", "yes", "no", "on", "off", "null", "none"]
    || s in ["y", "n", "Y", "N"]
  }

  lemma LeadingExactly(c: char)
    ensures IsLeading(c) <==> c in "{[&*!|>'\"%#@`-"
  {
  }

  lemma SpecialExactly(c: char)
    ensures IsSpecial(c) <==> c in "\0\r\n\t:{}[],&*?|><=!%@`#\"'\\"
  {
  }

  lemma KeywordExactly(s: string)
    ensures IsKeyword(s) <==> s in ["true", "false", "yes", "no", "on", "off", "null", "none"]
  {
  }

  lemma LetterExactly(s: string)
    ensures s == "y" || s == "n" || s == "Y" || s == "N" <==> s in ["y", "n", "Y", "N"]
  {
  }

  lemma BlankExactly(c: char)
    ensures c == ' ' || c == '\t' <==> c in " \t"
  {
  }

  lemma QuotesExactly(s: string)
    ensures NeedsQuoting(s) <==> NeedsQuotes(s)
  {
    if s != "" {
      LeadingExactly(s[0]);
      BlankExactly(s[|s| - 1]);
    }
    forall c ensures IsSpecial(c) <==> c in "\0\r\n\t:{}[],&*?|><=!%@`#\"'\\" { SpecialExactly(c); }
    KeywordExactly(Strip(Lower(s)));
    LetterExactly(s);
    hide IsLeading, IsSpecial, IsKeyword, Strip, Lower;
  }

  function Written(s: string): string { if NeedsQuotes(s) then EvidenceText.Quoted(s) else s }

  lemma EmitIsWritten(s: string)
    ensures Emit(s) == Written(s)
  {
    hide NeedsQuoting, NeedsQuotes, ScalarCodec.Escape;
    QuotesExactly(s);
    EvidenceText.EscapeIsSlashed(s);
  }

  // ---- Guards -----------------------------------------------------------------------------------------------------

  function ValueWord(v: GuardValue): string {
    match v
    case NullValue => "null"
    case FlagValue(flag) => EvidenceText.TrueOrFalse(flag)
    case NumberValue(n) => PrintInt(n)
    case TextValue(text) => Written(text)
  }

  /** The inputs of a guard, a key and a value each, far to the right. */
  function InputWords(inputs: seq<GuardInput>): seq<string> {
    if inputs == [] then []
    else ["        key: " + Written(inputs[0].key), "        value: " + ValueWord(inputs[0].value)] + InputWords(inputs[1..])
  }

  /** The heading of the inputs stands on the line of the first one. */
  function HeadedInputs(inputs: seq<GuardInput>): seq<string> {
    if inputs == [] then ["    inputs: []"]
    else
      ["    inputs:         key: " + Written(inputs[0].key), "        value: " + ValueWord(inputs[0].value)]
      + InputWords(inputs[1..])
  }

  /** A guard in alphabetical order of its keys; the one of an approval has two inputs and always says the same. */
  function GuardWords(g: Guard): seq<string> {
    match g
    case ApprovalGuard(scope, approvalId, checkedAt, evidence) =>
      ["    checked_at: " + Written(TimeText(checkedAt)),
       "    evidence_ref: " + Written("docs/pm/approvals/" + evidence.text + ".yaml"),
       "    guard: " + Written("approval_gate"),
       "    inputs:         key: " + Written("scope"),
       "        value: " + Written(ScopeWord(scope)),
       "        key: " + Written("approval_id"),
       "        value: " + Written(approvalId.text),
       "    result: " + Written("passed")]
    case OtherGuard(name, inputs, result, checked, reference) =>
      ["    checked_at: " + Written(checked), "    evidence_ref: " + Written(reference), "    guard: " + Written(name)]
      + HeadedInputs(inputs) + ["    result: " + Written(result)]
  }

  predicate EntryIs(name: string, prefix: string) { name + ": " == prefix }

  lemma EntryStarts(name: string, prefix: string, text: string)
    requires EntryIs(name, prefix)
    ensures Entry(name, text) == prefix + text
  {
  }

  lemma IndentedStarts(name: string, prefix: string, indented: string, text: string)
    requires EntryIs(name, prefix) && indented == "    " + prefix
    ensures Indented(Entry(name, text)) == indented + text
  {
    EntryStarts(name, prefix, text);
    assert "    " + (prefix + text) == ("    " + prefix) + text;
  }

  lemma GuardPrefixes()
    ensures EntryIs("checked_at", "checked_at: ") && "    checked_at: " == "    " + "checked_at: "
    ensures EntryIs("evidence_ref", "evidence_ref: ") && "    evidence_ref: " == "    " + "evidence_ref: "
    ensures EntryIs("guard", "guard: ") && "    guard: " == "    " + "guard: "
    ensures EntryIs("result", "result: ") && "    result: " == "    " + "result: "
  {
  }

  lemma InputPrefixes()
    ensures EntryIs("inputs", "inputs: ") && "    inputs: " == "    " + "inputs: "
    ensures EntryIs("key", "key: ") && "        key: " == "    " + ("    " + "key: ")
    ensures EntryIs("value", "value: ") && "        value: " == "    " + ("    " + "value: ")
    ensures "    inputs:         key: " == "    inputs: " + "        key: " && "    inputs: []" == "    inputs: " + "[]"
  {
  }

  lemma FarIndented(name: string, prefix: string, far: string, text: string)
    requires EntryIs(name, prefix) && far == "    " + ("    " + prefix)
    ensures Indented(Indented(Entry(name, text))) == far + text
  {
    EntryStarts(name, prefix, text);
    assert "    " + ("    " + (prefix + text)) == ("    " + ("    " + prefix)) + text;
  }

  lemma ValueIsWord(v: GuardValue)
    ensures ValueText(v) == ValueWord(v)
  {
    hide Emit, Written;
    if v.TextValue? { EmitIsWritten(v.text); }
  }

  lemma {:induction false} PairsAre(inputs: seq<GuardInput>)
    ensures PairLines(inputs) == InputWords(inputs)
  {
    hide Emit, Written, ValueText, ValueWord, Entry, Indented, EntryIs;
    if inputs != [] {
      InputPrefixes();
      EmitIsWritten(inputs[0].key);
      ValueIsWord(inputs[0].value);
      FarIndented("key", "key: ", "        key: ", Emit(inputs[0].key));
      FarIndented("value", "value: ", "        value: ", ValueText(inputs[0].value));
      PairsAre(inputs[1..]);
    }
  }

  lemma InputsAre(inputs: seq<GuardInput>)
    ensures InputLines(inputs) == HeadedInputs(inputs)
  {
    hide Emit, Written, ValueWord, Entry, Indented, EntryIs, PairLines;
    InputPrefixes();
    if inputs == [] {
      IndentedStarts("inputs", "inputs: ", "    inputs: ", "[]");
    } else {
      PairsAre(inputs);
      var far := "        key: " + Written(inputs[0].key);
      IndentedStarts("inputs", "inputs: ", "    inputs: ", far);
      assert "    inputs: " + ("        key: " + Written(inputs[0].key)) == ("    inputs: " + "        key: ") + Written(inputs[0].key);
      assert PairLines(inputs)[0] == far;
      assert PairLines(inputs)[1..] == ["        value: " + ValueWord(inputs[0].value)] + InputWords(inputs[1..]);
    }
  }

  lemma PlainGuardIs(name: string, inputs: seq<GuardInput>, result: string, checked: string, reference: string)
    ensures PlainGuardLines(name, inputs, result, checked, reference) ==
      ["    checked_at: " + Written(checked), "    evidence_ref: " + Written(reference), "    guard: " + Written(name)]
      + HeadedInputs(inputs) + ["    result: " + Written(result)]
  {
    hide Emit, Written, Entry, Indented, EntryIs, InputLines, HeadedInputs;
    GuardPrefixes();
    InputsAre(inputs);
    EmitIsWritten(checked);
    EmitIsWritten(reference);
    EmitIsWritten(name);
    EmitIsWritten(result);
    IndentedStarts("checked_at", "checked_at: ", "    checked_at: ", Emit(checked));
    IndentedStarts("evidence_ref", "evidence_ref: ", "    evidence_ref: ", Emit(reference));
    IndentedStarts("guard", "guard: ", "    guard: ", Emit(name));
    IndentedStarts("result", "result: ", "    result: ", Emit(result));
  }

  lemma GuardIs(g: Guard)
    ensures GuardLines(g) == GuardWords(g)
  {
    hide Written, HeadedInputs, PlainGuardLines, ScopeText, ScopeWord, TimeText;
    match g
    case OtherGuard(name, inputs, result, checked, reference) => PlainGuardIs(name, inputs, result, checked, reference);
    case ApprovalGuard(scope, approvalId, checkedAt, evidence) =>
      PlainGuardIs("approval_gate", ApprovalInputs(scope, approvalId), "passed", TimeText(checkedAt), PathText(evidence));
      ApprovalInputsAre(scope, approvalId);
  }

  lemma ApprovalInputsAre(scope: Scope, approvalId: ApprovalId)
    ensures HeadedInputs(ApprovalInputs(scope, approvalId)) ==
      ["    inputs:         key: " + Written("scope"), "        value: " + Written(ScopeWord(scope)),
       "        key: " + Written("approval_id"), "        value: " + Written(approvalId.text)]
  {
    hide Written, ScopeText, ScopeWord;
    ScopeWords(scope);
    var inputs := ApprovalInputs(scope, approvalId);
    assert inputs[1..][0] == inputs[1] && inputs[1..][1..] == [];
    assert InputWords([]) == [];
  }

  // ---- Entries ----------------------------------------------------------------------------------------------------

  /** Lines with a line feed between them. */
  function Spread(ls: seq<string>): string {
    if ls == [] then "" else ls[0] + if ls[1..] == [] then "" else ['\U{000A}'] + Spread(ls[1..])
  }

  lemma {:induction false} LinesAreSpread(ls: seq<string>)
    ensures Lines(ls) == Spread(ls)
  {
    if |ls| > 1 {
      LinesAreSpread(ls[1..]);
      assert ls[0] + "\n" + Lines(ls[1..]) == ls[0] + (['\U{000A}'] + Lines(ls[1..]));
    }
  }

  function ReferenceWords(refs: seq<Text>): string {
    if refs == [] then "[]" else Spread(seq(|refs|, i requires 0 <= i < |refs| => "- " + Written(refs[i].text)))
  }

  function AllGuardWords(gs: seq<Guard>): seq<string> {
    if gs == [] then [] else GuardWords(gs[0]) + AllGuardWords(gs[1..])
  }

  function GuardsWords(gs: seq<Guard>): string { if gs == [] then "[]" else Spread(AllGuardWords(gs)) }

  function OrNull(s: Option<string>): string { match s case None => "null" case Some(text) => Written(text) }

  function NumberOrNull(n: Option<int>): string { match n case None => "null" case Some(m) => PrintInt(m) }

  /** The entry of each key, where the event has one. */
  function WrittenEntry(e: Event, k: Key): Option<string> {
    match k
    case AcceptedCommitKey =>
      if e.extra.Integration? && e.extra.accepted.Some? then Some("accepted_commit: " + Written(e.extra.accepted.value.text))
      else None
    case ActorRoleKey => Some("actor_role_id: " + Written("PM"))
    case AttemptKey => Some("attempt: " + NumberOrNull(e.attempt))
    case DispatchIdKey => Some("dispatch_id: " + match e.dispatchId case None => "null" case Some(d) => Written(d.text))
    case EquivalenceEvidenceKey =>
      if e.extra.Integration? && e.extra.equivalence.Some? && e.extra.equivalence.value.1.Some?
      then Some("equivalence_evidence_ref: " + Written(e.extra.equivalence.value.1.value.text)) else None
    case EquivalenceMethodKey =>
      if e.extra.Integration? && e.extra.equivalence.Some?
      then Some("equivalence_method: " + Written(e.extra.equivalence.value.0.text)) else None
    case EquivalenceResultKey =>
      if e.extra.Integration? && e.extra.equivalence.Some? then Some("equivalence_result: " + Written("passed")) else None
    case _ => WrittenLater(e, k)
  }

  function WrittenLater(e: Event, k: Key): Option<string> {
    match k
    case EventIdKey => Some("event_id: " + Written(e.id.text))
    case EventTypeKey => Some("event_type: " + Written(EventWord(e.kind)))
    case EvidenceRefsKey => Some("evidence_refs: " + ReferenceWords(e.evidenceRefs))
    case FailureKindKey => if e.extra.FailureKind? then Some("failure_kind: " + Written(e.extra.failure.text)) else None
    case FromStateKey => Some("from_state: " + Written(StateWord(e.fromState)))
    case GuardResultsKey => Some("guard_results: " + GuardsWords(e.guards))
    case IntegratedCommitKey =>
      if e.extra.Integration? then Some("integrated_commit: " + Written(e.extra.integrated.text)) else None
    case LeaseEpochKey => Some("lease_epoch: " + PrintInt(e.leaseEpoch))
    case _ => WrittenLast(e, k)
  }

  function WrittenLast(e: Event, k: Key): Option<string> {
    match k
    case OccurredAtKey => Some("occurred_at: " + Written(TimeText(e.occurredAt)))
    case PayloadDigestKey => if e.extra.Digest? then Some("payload_digest: " + Written(DigestText())) else None
    case RevisionKey => Some("revision: " + PrintInt(e.revision))
    case SchemaVersionKey => Some("schema_version: " + Written("agentdesk.state-event/v2"))
    case SourceMessageKey => Some("source_message_id: " + match e.source case None => "null" case Some(m) => Written(m.text))
    case TaskIdKey => Some("task_id: " + Written(e.taskId.text))
    case _ => Some("to_state: " + Written(StateWord(e.toState)))
  }

  lemma ReferencesAre(refs: seq<Text>)
    ensures FieldText(References(refs)) == ReferenceWords(refs)
  {
    forall i | 0 <= i < |refs| ensures Emit(refs[i].text) == Written(refs[i].text) { EmitIsWritten(refs[i].text); }
    hide Emit, Written, Lines, Spread;
    var words := seq(|refs|, i requires 0 <= i < |refs| => "- " + Written(refs[i].text));
    assert ReferenceLines(refs) == words;
    LinesAreSpread(words);
  }

  lemma {:induction false} AllGuardsAre(gs: seq<Guard>)
    ensures AllGuardLines(gs) == AllGuardWords(gs)
  {
    hide GuardLines, GuardWords;
    if gs != [] {
      GuardIs(gs[0]);
      AllGuardsAre(gs[1..]);
    }
  }

  lemma GuardsAre(gs: seq<Guard>)
    ensures FieldText(Guards(gs)) == GuardsWords(gs)
  {
    hide AllGuardLines, AllGuardWords, Lines, Spread;
    AllGuardsAre(gs);
    LinesAreSpread(AllGuardLines(gs));
  }

  lemma FirstNames(k: Key)
    ensures k.AcceptedCommitKey? ==> EntryIs(Name(k), "accepted_commit: ")
    ensures k.ActorRoleKey? ==> EntryIs(Name(k), "actor_role_id: ")
    ensures k.AttemptKey? ==> EntryIs(Name(k), "attempt: ")
    ensures k.DispatchIdKey? ==> EntryIs(Name(k), "dispatch_id: ")
  {
  }

  lemma EquivalenceNames(k: Key)
    ensures k.EquivalenceEvidenceKey? ==> EntryIs(Name(k), "equivalence_evidence_ref: ")
    ensures k.EquivalenceMethodKey? ==> EntryIs(Name(k), "equivalence_method: ")
    ensures k.EquivalenceResultKey? ==> EntryIs(Name(k), "equivalence_result: ")
  {
  }

  lemma EventNames(k: Key)
    ensures k.EventIdKey? ==> EntryIs(Name(k), "event_id: ")
    ensures k.EventTypeKey? ==> EntryIs(Name(k), "event_type: ")
    ensures k.EvidenceRefsKey? ==> EntryIs(Name(k), "evidence_refs: ")
    ensures k.FailureKindKey? ==> EntryIs(Name(k), "failure_kind: ")
  {
  }

  lemma MiddleNames(k: Key)
    ensures k.FromStateKey? ==> EntryIs(Name(k), "from_state: ")
    ensures k.GuardResultsKey? ==> EntryIs(Name(k), "guard_results: ")
    ensures k.IntegratedCommitKey? ==> EntryIs(Name(k), "integrated_commit: ")
    ensures k.LeaseEpochKey? ==> EntryIs(Name(k), "lease_epoch: ")
  {
  }

  lemma LateNames(k: Key)
    ensures k.OccurredAtKey? ==> EntryIs(Name(k), "occurred_at: ")
    ensures k.PayloadDigestKey? ==> EntryIs(Name(k), "payload_digest: ")
    ensures k.RevisionKey? ==> EntryIs(Name(k), "revision: ")
    ensures k.SchemaVersionKey? ==> EntryIs(Name(k), "schema_version: ")
  {
  }

  lemma LastNames(k: Key)
    ensures k.SourceMessageKey? ==> EntryIs(Name(k), "source_message_id: ")
    ensures k.TaskIdKey? ==> EntryIs(Name(k), "task_id: ")
    ensures k.ToStateKey? ==> EntryIs(Name(k), "to_state: ")
  {
  }

  /** What stands in the file for a key. */
  predicate EntryHolds(e: Event, k: Key) {
    WrittenEntry(e, k) == if FieldOf(e, k).Absent? then None else Some(Block(e, k))
  }

  lemma FirstEntries(e: Event, k: Key)
    requires k.AcceptedCommitKey? || k.ActorRoleKey? || k.AttemptKey? || k.DispatchIdKey?
    ensures EntryHolds(e, k)
  {
    hide Name, Emit, Written, Entry, EntryIs;
    FirstNames(k);
    var text := FieldText(FieldOf(e, k));
    if FieldOf(e, k).Plain? { EmitIsWritten(FieldOf(e, k).text); }
    match k {
      case AcceptedCommitKey => EntryStarts(Name(k), "accepted_commit: ", text);
      case ActorRoleKey => EntryStarts(Name(k), "actor_role_id: ", text);
      case AttemptKey => EntryStarts(Name(k), "attempt: ", text);
      case DispatchIdKey => EntryStarts(Name(k), "dispatch_id: ", text);
    }
  }

  lemma EquivalenceEntries(e: Event, k: Key)
    requires k.EquivalenceEvidenceKey? || k.EquivalenceMethodKey? || k.EquivalenceResultKey?
    ensures EntryHolds(e, k)
  {
    hide Name, Emit, Written, Entry, EntryIs, StateText, StateWord, KindText, EventWord, TimeText, DigestText, SCHEMA, Lines, Spread,
      ReferenceWords, GuardsWords;
    EquivalenceNames(k);
    var text := FieldText(FieldOf(e, k));
    if FieldOf(e, k).Plain? { EmitIsWritten(FieldOf(e, k).text); }
    match k {
      case EquivalenceEvidenceKey => EntryStarts(Name(k), "equivalence_evidence_ref: ", text);
      case EquivalenceMethodKey => EntryStarts(Name(k), "equivalence_method: ", text);
      case EquivalenceResultKey => EntryStarts(Name(k), "equivalence_result: ", text);
    }
  }

  lemma EventEntries(e: Event, k: Key)
    requires k.EventIdKey? || k.EventTypeKey? || k.EvidenceRefsKey? || k.FailureKindKey?
    ensures EntryHolds(e, k)
  {
    hide Name, Emit, Written, Entry, EntryIs, StateText, StateWord, KindText, EventWord, TimeText, DigestText, SCHEMA, Lines, Spread,
      ReferenceWords, GuardsWords;
    EventNames(k);
    var text := FieldText(FieldOf(e, k));
    if FieldOf(e, k).Plain? { EmitIsWritten(FieldOf(e, k).text); }
    EventWords(e.kind);
    ReferencesAre(e.evidenceRefs);
    match k {
      case EventIdKey => EntryStarts(Name(k), "event_id: ", text);
      case EventTypeKey => EntryStarts(Name(k), "event_type: ", text);
      case EvidenceRefsKey => EntryStarts(Name(k), "evidence_refs: ", text);
      case FailureKindKey => EntryStarts(Name(k), "failure_kind: ", text);
    }
  }

  lemma MiddleEntries(e: Event, k: Key)
    requires k.FromStateKey? || k.GuardResultsKey? || k.IntegratedCommitKey? || k.LeaseEpochKey?
    ensures EntryHolds(e, k)
  {
    hide Name, Emit, Written, Entry, EntryIs, StateText, StateWord, KindText, EventWord, TimeText, DigestText, SCHEMA, Lines, Spread,
      ReferenceWords, GuardsWords;
    MiddleNames(k);
    var text := FieldText(FieldOf(e, k));
    if FieldOf(e, k).Plain? { EmitIsWritten(FieldOf(e, k).text); }
    StateWords(e.fromState);
    GuardsAre(e.guards);
    match k {
      case FromStateKey => EntryStarts(Name(k), "from_state: ", text);
      case GuardResultsKey => EntryStarts(Name(k), "guard_results: ", text);
      case IntegratedCommitKey => EntryStarts(Name(k), "integrated_commit: ", text);
      case LeaseEpochKey => EntryStarts(Name(k), "lease_epoch: ", text);
    }
  }

  lemma LateEntries(e: Event, k: Key)
    requires k.OccurredAtKey? || k.PayloadDigestKey? || k.RevisionKey? || k.SchemaVersionKey?
    ensures EntryHolds(e, k)
  {
    hide Name, Emit, Written, Entry, EntryIs, StateText, StateWord, KindText, EventWord, TimeText, DigestText, SCHEMA, Lines, Spread,
      ReferenceWords, GuardsWords;
    LateNames(k);
    var text := FieldText(FieldOf(e, k));
    if FieldOf(e, k).Plain? { EmitIsWritten(FieldOf(e, k).text); }
    SchemaIs();
    match k {
      case OccurredAtKey => EntryStarts(Name(k), "occurred_at: ", text);
      case PayloadDigestKey => EntryStarts(Name(k), "payload_digest: ", text);
      case RevisionKey => EntryStarts(Name(k), "revision: ", text);
      case SchemaVersionKey => EntryStarts(Name(k), "schema_version: ", text);
    }
  }

  lemma LastEntries(e: Event, k: Key)
    requires k.SourceMessageKey? || k.TaskIdKey? || k.ToStateKey?
    ensures EntryHolds(e, k)
  {
    hide Name, Emit, Written, Entry, EntryIs, StateText, StateWord, KindText, EventWord, TimeText, DigestText, SCHEMA, Lines, Spread,
      ReferenceWords, GuardsWords;
    LastNames(k);
    var text := FieldText(FieldOf(e, k));
    if FieldOf(e, k).Plain? { EmitIsWritten(FieldOf(e, k).text); }
    StateWords(e.toState);
    match k {
      case SourceMessageKey => EntryStarts(Name(k), "source_message_id: ", text);
      case TaskIdKey => EntryStarts(Name(k), "task_id: ", text);
      case ToStateKey => EntryStarts(Name(k), "to_state: ", text);
    }
  }

  lemma SchemaIs()
    ensures SCHEMA == "agentdesk.state-event/v2"
  {
  }

  lemma EntriesHold(e: Event, k: Key)
    ensures EntryHolds(e, k)
  {
    hide EntryHolds;
    if k.AcceptedCommitKey? || k.ActorRoleKey? || k.AttemptKey? || k.DispatchIdKey? {
      FirstEntries(e, k);
    } else if k.EquivalenceEvidenceKey? || k.EquivalenceMethodKey? || k.EquivalenceResultKey? {
      EquivalenceEntries(e, k);
    } else if k.EventIdKey? || k.EventTypeKey? || k.EvidenceRefsKey? || k.FailureKindKey? {
      EventEntries(e, k);
    } else if k.FromStateKey? || k.GuardResultsKey? || k.IntegratedCommitKey? || k.LeaseEpochKey? {
      MiddleEntries(e, k);
    } else if k.OccurredAtKey? || k.PayloadDigestKey? || k.RevisionKey? || k.SchemaVersionKey? {
      LateEntries(e, k);
    } else {
      LastEntries(e, k);
    }
  }

  // ---- The document -----------------------------------------------------------------------------------------------

  /** The entries of some keys, each with its line feed. */
  function Document(e: Event, keys: seq<Key>): string {
    if keys == [] then ""
    else
      (match WrittenEntry(e, keys[0]) case None => "" case Some(entry) => entry + ['\U{000A}']) + Document(e, keys[1..])
  }

  lemma {:induction false} BlocksAreWritten(e: Event, keys: seq<Key>)
    ensures LineCodec.Join(Blocks(e, keys)) == Document(e, keys)
  {
    hide Block, FieldOf, WrittenEntry;
    if keys != [] {
      EntriesHold(e, keys[0]);
      BlocksAreWritten(e, keys[1..]);
      if !FieldOf(e, keys[0]).Absent? {
        LineCodec.JoinCons(Block(e, keys[0]), Blocks(e, keys[1..]));
      } else {
        assert [] + Blocks(e, keys[1..]) == Blocks(e, keys[1..]);
        assert "" + Document(e, keys[1..]) == Document(e, keys[1..]);
      }
    }
    hide LineCodec.Join, EntryHolds;
  }

  /** The name of `k` is the smaller one. */
  predicate InOrder(k: Key, l: Key) { IsSmaller(Name(k), Name(l)) }

  lemma PartingNames(k: Key, l: Key, n: nat)
    requires n <= |Name(k)| && PartsAt(Name(k), Name(l), n)
    ensures InOrder(k, l)
  {
  }

  lemma FirstInOrder()
    ensures InOrder(AcceptedCommitKey, ActorRoleKey)
    ensures InOrder(ActorRoleKey, AttemptKey)
    ensures InOrder(AttemptKey, DispatchIdKey)
    ensures InOrder(DispatchIdKey, EquivalenceEvidenceKey)
  {
    PartingNames(AcceptedCommitKey, ActorRoleKey, 2);
    PartingNames(ActorRoleKey, AttemptKey, 1);
    PartingNames(AttemptKey, DispatchIdKey, 0);
    PartingNames(DispatchIdKey, EquivalenceEvidenceKey, 0);
    hide InOrder;
  }

  lemma EquivalenceInOrder()
    ensures InOrder(EquivalenceEvidenceKey, EquivalenceMethodKey)
    ensures InOrder(EquivalenceMethodKey, EquivalenceResultKey)
    ensures InOrder(EquivalenceResultKey, EventIdKey)
  {
    PartingNames(EquivalenceEvidenceKey, EquivalenceMethodKey, 12);
    PartingNames(EquivalenceMethodKey, EquivalenceResultKey, 12);
    PartingNames(EquivalenceResultKey, EventIdKey, 1);
    hide InOrder;
  }

  lemma EventInOrder()
    ensures InOrder(EventIdKey, EventTypeKey)
    ensures InOrder(EventTypeKey, EvidenceRefsKey)
    ensures InOrder(EvidenceRefsKey, FailureKindKey)
    ensures InOrder(FailureKindKey, FromStateKey)
  {
    PartingNames(EventIdKey, EventTypeKey, 6);
    PartingNames(EventTypeKey, EvidenceRefsKey, 2);
    PartingNames(EvidenceRefsKey, FailureKindKey, 0);
    PartingNames(FailureKindKey, FromStateKey, 1);
    hide InOrder;
  }

  lemma MiddleInOrder()
    ensures InOrder(FromStateKey, GuardResultsKey)
    ensures InOrder(GuardResultsKey, IntegratedCommitKey)
    ensures InOrder(IntegratedCommitKey, LeaseEpochKey)
    ensures InOrder(LeaseEpochKey, OccurredAtKey)
  {
    PartingNames(FromStateKey, GuardResultsKey, 0);
    PartingNames(GuardResultsKey, IntegratedCommitKey, 0);
    PartingNames(IntegratedCommitKey, LeaseEpochKey, 0);
    PartingNames(LeaseEpochKey, OccurredAtKey, 0);
    hide InOrder;
  }

  lemma LateInOrder()
    ensures InOrder(OccurredAtKey, PayloadDigestKey)
    ensures InOrder(PayloadDigestKey, RevisionKey)
    ensures InOrder(RevisionKey, SchemaVersionKey)
  {
    PartingNames(OccurredAtKey, PayloadDigestKey, 0);
    PartingNames(PayloadDigestKey, RevisionKey, 0);
    PartingNames(RevisionKey, SchemaVersionKey, 0);
    hide InOrder;
  }

  lemma LastInOrder()
    ensures InOrder(SchemaVersionKey, SourceMessageKey)
    ensures InOrder(SourceMessageKey, TaskIdKey)
    ensures InOrder(TaskIdKey, ToStateKey)
  {
    PartingNames(SchemaVersionKey, SourceMessageKey, 1);
    PartingNames(SourceMessageKey, TaskIdKey, 0);
    PartingNames(TaskIdKey, ToStateKey, 1);
    hide InOrder;
  }

  lemma KeysInOrder(i: nat)
    requires i < 21
    ensures |KEYS| == 22 && InOrder(KEYS[i], KEYS[i + 1])
  {
    hide InOrder;
    FirstInOrder();
    EquivalenceInOrder();
    EventInOrder();
    MiddleInOrder();
    LateInOrder();
    LastInOrder();
  }

  lemma {:induction false} KeysAscend(i: nat, j: nat)
    requires i < j < 22
    ensures |KEYS| == 22 && InOrder(KEYS[i], KEYS[j])
    decreases j
  {
    hide Name, KEYS;
    KeysInOrder(j - 1);
    if i < j - 1 {
      KeysAscend(i, j - 1);
      SmallerThrough(Name(KEYS[i]), Name(KEYS[j - 1]), Name(KEYS[j]));
    }
  }

  lemma SmallerThrough(s: string, t: string, u: string)
    requires IsSmaller(s, t) && IsSmaller(t, u)
    ensures IsSmaller(s, u)
  {
    hide IsSmaller, Routing.Below;
    BelowExactly(s, t);
    BelowExactly(t, u);
    BelowExactly(s, u);
    Routing.BelowTransitive(s, t, u);
  }

  /** The text of every event: all of its entries, written out as above, once each and in the order of their names. */
  lemma EventIsWritten(e: Event)
    ensures EventText(e) == Document(e, KEYS)
    ensures (forall k :: k in KEYS) && forall i: nat, j: nat :: i < j < |KEYS| ==> InOrder(KEYS[i], KEYS[j])
  {
    hide Document, Blocks, InOrder, LineCodec.Join;
    BlocksAreWritten(e, KEYS);
    forall k ensures k in KEYS { EventLines.AllKeys(k); }
    forall i: nat, j: nat | i < j < |KEYS| ensures InOrder(KEYS[i], KEYS[j]) { KeysAscend(i, j); }
  }
}
