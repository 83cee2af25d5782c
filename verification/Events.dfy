/** The records of an event, and the text of its file (`_build_event_bytes`, `_emit_yaml`). */
module Events {
  import opened Wrappers
  import opened Texts
  import opened Approvals
  import opened Ledger
  import ScalarCodec
  import LineCodec
  import Decimal

  // ---- Evidence records ------------------------------------------------------------------------------------------

  /** The parts of the key `{task}/r{revision}/a{attempt}/{dispatch}/task.dispatch`. */
  datatype DedupeKey = DedupeKey(taskId: TaskId, revision: int, attempt: int, dispatchId: DispatchId)

  datatype Outbox = Outbox(
    message: MessageId, eventId: EventId, key: DedupeKey, role: Text, createdAt: Instant, model: Text,
    cardPath: Text, cardCommit: Commit, baseCommit: Commit, branch: Text, reportPath: Text)

  /** What an event carries beyond the common fields; the digest of an outbox message stands for the message. */
  datatype Extra =
    | NoExtra
    | Digest(outbox: Outbox)
    | FailureKind(failure: Text)
    | Integration(integrated: Commit, accepted: Option<Commit>, equivalence: Option<(Text, Option<Text>)>)

  datatype Kind =
    | Specification | Dispatching | Acknowledgement | Submission | Acceptation | Return | Requeue | Integrating
    | Blocking | IntegrationFailing | Resolution | Rescoping | BlockerCancelling | Cancelling | Superseding | Failing

  datatype Event = Event(
    id: EventId, kind: Kind, taskId: TaskId, revision: int, attempt: Option<int>, dispatchId: Option<DispatchId>,
    fromState: State, toState: State, leaseEpoch: int, occurredAt: Instant, source: Option<Text>,
    evidenceRefs: seq<Text>, guards: seq<Guard>, extra: Extra)

  // ---- Times and names --------------------------------------------------------------------------------------------

  function Digits(n: nat, width: nat): (s: string)
    ensures |s| == width && forall i :: 0 <= i < width ==> '0' <= s[i] <= '9'
  {
    if width == 0 then "" else Digits(n / 10, width - 1) + [Decimal.DigitChar(n % 10)]
  }

  /** The proleptic Gregorian date of a day, counted from 1970-01-01. */
  function Date(day: int): (nat, nat, nat) {
    var shifted := day + 719468;
    var era, ofEra := shifted / 146097, shifted % 146097;
    var year := (ofEra - ofEra / 1460 + ofEra / 36524 - ofEra / 146096) / 365;
    var ofYear := ofEra - (365 * year + year / 4 - year / 100);
    var month := (5 * ofYear + 2) / 153;
    var date := ofYear - (153 * month + 2) / 5 + 1;
    var civil := era * 400 + year + if month < 10 then 0 else 1;
    (if civil < 0 then 0 else civil, if month < 10 then month + 3 else month - 9, if date < 0 then 0 else date)
  }

  /** `%Y-%m-%dT%H:%M:%SZ`, for the years of four digits that the source knows. */
  function TimeText(t: Instant): (s: string)
    ensures IsTimeText(s)
  {
    var second := t / SECOND;
    var (year, month, date) := Date(second / 86400);
    var clock := second % 86400;
    Digits(year, 4) + "-" + Digits(month, 2) + "-" + Digits(date, 2) + "T"
    + Digits(clock / 3600, 2) + ":" + Digits(clock / 60 % 60, 2) + ":" + Digits(clock % 60, 2) + "Z"
  }

  /** The form of a stored time. */
  predicate IsTimeText(s: string) {
    && |s| == 20 && s[4] == '-' && s[7] == '-' && s[10] == 'T' && s[13] == ':' && s[16] == ':' && s[19] == 'Z'
    && forall i :: 0 <= i < 19 && i != 4 && i != 7 && i != 10 && i != 13 && i != 16 ==> '0' <= s[i] <= '9'
  }

  function ScopeText(s: Scope): string {
    match s case DispatchScope => "dispatch" case AcceptScope => "accept" case IntegrateScope => "integrate"
  }

  function StateText(s: State): string {
    match s
    case Draft => "draft"
    case Ready => "ready"
    case Dispatched => "dispatched"
    case InProgress => "in_progress"
    case ReviewReady => "review_ready"
    case Returned => "returned"
    case Accepted => "accepted"
    case Integrated => "integrated"
    case Blocked => "blocked"
    case Cancelled => "cancelled"
    case Superseded => "superseded"
  }

  function KindText(k: Kind): string {
    match k
    case Specification => "TASK_SPECIFIED"
    case Dispatching => "TASK_DISPATCHED"
    case Acknowledgement => "DISPATCH_ACKNOWLEDGED"
    case Submission => "DELIVERY_SUBMITTED"
    case Acceptation => "DELIVERY_ACCEPTED"
    case Return => "DELIVERY_RETURNED"
    case Requeue => "TASK_REQUEUED"
    case Integrating => "CHANGE_INTEGRATED"
    case Blocking => "TASK_BLOCKED"
    case IntegrationFailing => "INTEGRATION_FAILED"
    case Resolution => "BLOCKER_RESOLVED"
    case Rescoping => "BLOCKER_RESCOPED"
    case BlockerCancelling => "BLOCKER_CANCELLED"
    case Cancelling => "TASK_CANCELLED"
    case Superseding => "TASK_SUPERSEDED"
    case Failing => "DISPATCH_FAILED"
  }

  const SCHEMA := "agentdesk.state-event/v2"

  /** A digest as it looks; which digest it is does not matter to the reader. */
  function DigestText(): string { "sha256:" + Digits(0, 64) }

  function PathText(e: EventId): string { "docs/pm/approvals/" + e.text + ".yaml" }

  // ---- Fields -----------------------------------------------------------------------------------------------------

  /** The keys of an event file, in the order in which they are written. */
  datatype Key =
    | AcceptedCommitKey | ActorRoleKey | AttemptKey | DispatchIdKey | EquivalenceEvidenceKey
    | EquivalenceMethodKey | EquivalenceResultKey | EventIdKey | EventTypeKey | EvidenceRefsKey | FailureKindKey
    | FromStateKey | GuardResultsKey | IntegratedCommitKey | LeaseEpochKey | OccurredAtKey | PayloadDigestKey
    | RevisionKey | SchemaVersionKey | SourceMessageKey | TaskIdKey | ToStateKey

  const KEYS: seq<Key> := [
    AcceptedCommitKey, ActorRoleKey, AttemptKey, DispatchIdKey, EquivalenceEvidenceKey, EquivalenceMethodKey,
    EquivalenceResultKey, EventIdKey, EventTypeKey, EvidenceRefsKey, FailureKindKey, FromStateKey,
    GuardResultsKey, IntegratedCommitKey, LeaseEpochKey, OccurredAtKey, PayloadDigestKey, RevisionKey,
    SchemaVersionKey, SourceMessageKey, TaskIdKey, ToStateKey]

  function Name(k: Key): string {
    match k
    case AcceptedCommitKey => "accepted_commit"
    case ActorRoleKey => "actor_role_id"
    case AttemptKey => "attempt"
    case DispatchIdKey => "dispatch_id"
    case EquivalenceEvidenceKey => "equivalence_evidence_ref"
    case EquivalenceMethodKey => "equivalence_method"
    case EquivalenceResultKey => "equivalence_result"
    case EventIdKey => "event_id"
    case EventTypeKey => "event_type"
    case EvidenceRefsKey => "evidence_refs"
    case FailureKindKey => "failure_kind"
    case FromStateKey => "from_state"
    case GuardResultsKey => "guard_results"
    case IntegratedCommitKey => "integrated_commit"
    case LeaseEpochKey => "lease_epoch"
    case OccurredAtKey => "occurred_at"
    case PayloadDigestKey => "payload_digest"
    case RevisionKey => "revision"
    case SchemaVersionKey => "schema_version"
    case SourceMessageKey => "source_message_id"
    case TaskIdKey => "task_id"
    case ToStateKey => "to_state"
  }

  datatype Field =
    | Absent | Empty | Integer(number: int) | Plain(text: string) | References(refs: seq<Text>) | Guards(guards: seq<Guard>)

  function OptionalInteger(n: Option<int>): Field { if n.Some? then Integer(n.value) else Empty }

  function OptionalPlain(s: Option<string>): Field { if s.Some? then Plain(s.value) else Empty }

  function FieldOf(e: Event, k: Key): Field {
    match k
    case AcceptedCommitKey =>
      if e.extra.Integration? && e.extra.accepted.Some? then Plain(e.extra.accepted.value.text) else Absent
    case ActorRoleKey => Plain("PM")
    case AttemptKey => OptionalInteger(e.attempt)
    case DispatchIdKey => if e.dispatchId.Some? then Plain(e.dispatchId.value.text) else Empty
    case EquivalenceEvidenceKey =>
      if e.extra.Integration? && e.extra.equivalence.Some? && e.extra.equivalence.value.1.Some?
      then Plain(e.extra.equivalence.value.1.value.text) else Absent
    case EquivalenceMethodKey =>
      if e.extra.Integration? && e.extra.equivalence.Some? then Plain(e.extra.equivalence.value.0.text) else Absent
    case EquivalenceResultKey => if e.extra.Integration? && e.extra.equivalence.Some? then Plain("passed") else Absent
    case EventIdKey => Plain(e.id.text)
    case EventTypeKey => Plain(KindText(e.kind))
    case EvidenceRefsKey => References(e.evidenceRefs)
    case FailureKindKey => if e.extra.FailureKind? then Plain(e.extra.failure.text) else Absent
    case FromStateKey => Plain(StateText(e.fromState))
    case GuardResultsKey => Guards(e.guards)
    case IntegratedCommitKey => if e.extra.Integration? then Plain(e.extra.integrated.text) else Absent
    case LeaseEpochKey => Integer(e.leaseEpoch)
    case OccurredAtKey => Plain(TimeText(e.occurredAt))
    case PayloadDigestKey => if e.extra.Digest? then Plain(DigestText()) else Absent
    case RevisionKey => Integer(e.revision)
    case SchemaVersionKey => Plain(SCHEMA)
    case SourceMessageKey => if e.source.Some? then Plain(e.source.value.text) else Empty
    case TaskIdKey => Plain(e.taskId.text)
    case ToStateKey => Plain(StateText(e.toState))
  }

  // ---- Printing ---------------------------------------------------------------------------------------------------

  predicate IsLeading(c: char) {
    || c == '{' || c == '[' || c == '&' || c == '*' || c == '!' || c == '|' || c == '>' || c == '\'' || c == '"'
    || c == '%' || c == '#' || c == '@' || c == '`' || c == '-'
  }

  predicate IsSpecial(c: char) {
    || c == '\0' || c == '\r' || c == '\n' || c == '\t' || c == ':' || c == '{' || c == '}' || c == '[' || c == ']'
    || c == ',' || c == '&' || c == '*' || c == '?' || c == '|' || c == '>' || c == '<' || c == '=' || c == '!'
    || c == '%' || c == '@' || c == '`' || c == '#' || c == '"' || c == '\'' || c == '\\'
  }

  function LowerChar(c: char): char { if 'A' <= c <= 'Z' then c - 'A' + 'a' else c }

  /** Lower case, as far as the keywords below are concerned. */
  function Lower(s: string): (t: string)
    ensures |t| == |s|
  {
    if s == "" then "" else [LowerChar(s[0])] + Lower(s[1..])
  }

  predicate IsKeyword(s: string) {
    || s == "true" || s == "false" || s == "yes" || s == "no" || s == "on" || s == "off" || s == "null" || s == "none"
  }

  /** `_needs_quoting`. */
  predicate NeedsQuoting(s: string) {
    || s == "" || IsLeading(s[0]) || s[|s| - 1] == ' ' || s[|s| - 1] == '\t'
    || (exists i :: 0 <= i < |s| && IsSpecial(s[i]))
    || IsKeyword(Strip(Lower(s))) || s == "y" || s == "n" || s == "Y" || s == "N"
  }

  function Emit(s: string): string { if NeedsQuoting(s) then "\"" + ScalarCodec.Escape(s) + "\"" else s }

  /** Lines separated by line feeds. */
  function Lines(ls: seq<string>): string {
    if ls == [] then "" else if |ls| == 1 then ls[0] else ls[0] + "\n" + Lines(ls[1..])
  }

  function ReferenceLines(refs: seq<Text>): seq<string> {
    seq(|refs|, i requires 0 <= i < |refs| => "- " + Emit(refs[i].text))
  }

  function ValueText(v: GuardValue): string {
    match v
    case NullValue => "null"
    case FlagValue(flag) => if flag then "true" else "false"
    case NumberValue(n) => PrintInt(n)
    case TextValue(text) => Emit(text)
  }

  function Entry(key: string, text: string): string { key + ": " + text }

  function Indented(line: string): string { "    " + line }

  function PairLines(inputs: seq<GuardInput>): (ls: seq<string>)
    ensures |ls| == 2 * |inputs|
  {
    if inputs == [] then []
    else
      [Indented(Indented(Entry("key", Emit(inputs[0].key)))), Indented(Indented(Entry("value", ValueText(inputs[0].value))))]
      + PairLines(inputs[1..])
  }

  /** The inputs of a guard; the first key stands on the line of their heading. */
  function InputLines(inputs: seq<GuardInput>): seq<string> {
    if inputs == [] then [Indented(Entry("inputs", "[]"))]
    else [Indented(Entry("inputs", PairLines(inputs)[0]))] + PairLines(inputs)[1..]
  }

  function PlainGuardLines(name: string, inputs: seq<GuardInput>, result: string, checkedAt: string, reference: string)
    : seq<string>
  {
    [Indented(Entry("checked_at", Emit(checkedAt))), Indented(Entry("evidence_ref", Emit(reference))),
     Indented(Entry("guard", Emit(name)))]
    + InputLines(inputs) + [Indented(Entry("result", Emit(result)))]
  }

  function ApprovalInputs(scope: Scope, approvalId: ApprovalId): seq<GuardInput> {
    [GuardInput("scope", TextValue(ScopeText(scope))), GuardInput("approval_id", TextValue(approvalId.text))]
  }

  /** A guard, key by key, each on a line of its own below the heading of the guards. */
  function GuardLines(g: Guard): seq<string> {
    match g
    case ApprovalGuard(scope, approvalId, checkedAt, evidence) =>
      PlainGuardLines("approval_gate", ApprovalInputs(scope, approvalId), "passed", TimeText(checkedAt), PathText(evidence))
    case OtherGuard(name, inputs, result, checked, reference) => PlainGuardLines(name, inputs, result, checked, reference)
  }

  /** The guards one after the other, with nothing to tell where one ends and the next one starts. */
  function AllGuardLines(gs: seq<Guard>): seq<string> {
    if gs == [] then [] else GuardLines(gs[0]) + AllGuardLines(gs[1..])
  }

  function FieldText(f: Field): string {
    match f
    case Absent => ""
    case Empty => "null"
    case Integer(n) => PrintInt(n)
    case Plain(s) => Emit(s)
    case References(refs) => if refs == [] then "[]" else Lines(ReferenceLines(refs))
    case Guards(gs) => if gs == [] then "[]" else Lines(AllGuardLines(gs))
  }

  function Block(e: Event, k: Key): string { Entry(Name(k), FieldText(FieldOf(e, k))) }

  /** The entries of the keys that are present. */
  function Blocks(e: Event, keys: seq<Key>): seq<string> {
    if keys == [] then []
    else (if FieldOf(e, keys[0]).Absent? then [] else [Block(e, keys[0])]) + Blocks(e, keys[1..])
  }

  function EventText(e: Event): string { LineCodec.Join(Blocks(e, KEYS)) }
}
