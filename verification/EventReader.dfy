/** The line reader of event files and what a gated replay takes from it (`_parse_custom_yaml_mapping`,
    `_validate_state_event_schema`, `_extract_approval_guard_from_existing_event`). */
module EventReader {
  import opened Wrappers
  import opened Texts
  import opened Approvals
  import opened Ledger
  import opened Events
  import LineCodec

  // ---- Values -----------------------------------------------------------------------------------------------------

  datatype Value =
    | Nothing | Flag(flag: bool) | Number(number: int) | Words(text: string) | Items(items: seq<string>) | Mapping

  /** Comparing a value with an integer; truth values equal one and zero. */
  predicate EqualsNumber(v: Option<Value>, n: int) {
    v == Some(Number(n)) || (v.Some? && v.value.Flag? && n == if v.value.flag then 1 else 0)
  }

  predicate IsFlagWord(v: string) { v == "true" || v == "True" || v == "false" || v == "False" }

  /** `int` of digits and a sign; nothing where it raises. */
  function Converted(digits: string, sign: int): Option<Value> {
    if IsCountable(digits) then Some(Number(sign * NumberOf(digits))) else None
  }

  /** `_coerce_custom_yaml_value`; nothing where `int` raises. */
  function Coerce(val: string): Option<Value> {
    var v := Strip(val);
    if v == "null" then Some(Nothing)
    else if IsFlagWord(v) then Some(Flag(v == "true" || v == "True"))
    else if IsDigits(v) then Converted(v, 1)
    else if v != "" && v[0] == '-' && IsDigits(v[1..]) then Converted(v[1..], -1)
    else if v != "" && v[0] == '"' && v[|v| - 1] == '"' then Some(Words(if |v| < 2 then "" else v[1..|v| - 1]))
    else if v == "[]" then Some(Items([]))
    else if v == "{}" then Some(Mapping)
    else if "- " <= v then Some(Items([v[2..]]))
    else Some(Words(v))
  }

  // ---- Lines ------------------------------------------------------------------------------------------------------

  datatype Input = Input(key: string, value: Option<string>)

  /** A guard as far as it is looked at. */
  datatype GuardMap = GuardMap(
    checked: Option<Value>, reference: Option<Value>, name: Option<Value>, result: Option<Value>, inputs: Option<seq<Input>>)

  const NO_GUARD := GuardMap(None, None, None, None, None)

  /** The entries read so far, whether one of them has no known key, and the guards read so far. */
  datatype Reading = Reading(top: map<Key, Value>, extra: bool, guards: seq<GuardMap>)

  const NOTHING_READ := Reading(map[], false, [])

  function Find(s: string, keys: seq<Key>): (k: Option<Key>)
    ensures k.Some? ==> Name(k.value) == s
    ensures k.None? ==> forall key :: key in keys ==> Name(key) != s
  {
    if keys == [] then None else if Name(keys[0]) == s then Some(keys[0]) else Find(s, keys[1..])
  }

  function SetField(g: GuardMap, key: string, v: Value): GuardMap {
    if key == "checked_at" then g.(checked := Some(v))
    else if key == "evidence_ref" then g.(reference := Some(v))
    else if key == "guard" then g.(name := Some(v))
    else if key == "result" then g.(result := Some(v))
    else g
  }

  function Inputs(g: GuardMap): seq<Input> { if g.inputs.Some? then g.inputs.value else [] }

  /** A line eight spaces in: a key starts an input, a value goes to the last one. */
  function ReadInput(g: GuardMap, inner: string): GuardMap {
    var (key, val) := Partition(inner);
    var inputs := Inputs(g);
    g.(inputs := Some(
      if key == "key" then inputs + [Input(val, None)]
      else if key == "value" && inputs != [] then inputs[..|inputs| - 1] + [inputs[|inputs| - 1].(value := Some(val))]
      else inputs))
  }

  /** A line four spaces in; the first input may stand on the line of the inputs' heading. */
  function ReadGuardField(g: GuardMap, line: string): GuardMap {
    var (key, val) := Partition(line);
    if key == "inputs" then
      var (innerKey, innerVal) := Partition(val);
      g.(inputs := Some(Inputs(g) + if ':' in val && innerKey == "key" then [Input(innerVal, None)] else []))
    else SetField(g, key, Words(val))
  }

  predicate IsIndented(line: string) { "    " <= line }

  function ReadGuardLine(g: GuardMap, line: string): GuardMap {
    if IsIndented(line) then if ':' in line[4..] then ReadInput(g, line[4..]) else g
    else if ':' in line then ReadGuardField(g, line)
    else g
  }

  predicate IsBlank(line: string) { Strip(line) == "" }

  /** A line that reads as an entry of the document itself. */
  predicate IsEntry(line: string) { !IsBlank(line) && ':' in line && line[0] != ' ' }

  /** The heading of the guards starts a guard, with the entry that stands on its own line. */
  function ReadHeading(s: Reading, val: string): Option<Reading> {
    var (key, text) := Partition(val);
    if val == "" || key == "" then Some(s.(guards := s.guards + [NO_GUARD]))
    else
      match Coerce(text)
      case None => None
      case Some(v) => Some(s.(guards := s.guards + [SetField(NO_GUARD, key, v)]))
  }

  function ReadEntry(s: Reading, line: string): Option<Reading> {
    var (name, val) := Partition(line);
    var key := Find(name, KEYS);
    if key == Some(GuardResultsKey) then ReadHeading(s, val)
    else
      match if val == "" then Some(Nothing) else Coerce(val)
      case None => None
      case Some(v) => Some(if key.Some? then s.(top := s.top[key.value := v]) else s.(extra := true))
  }

  /** One round of the reader's loop; nothing where an untyped error escapes. */
  function ReadLine(s: Reading, line: string): Option<Reading> {
    if IsBlank(line) then Some(s)
    else if IsEntry(line) then ReadEntry(s, line)
    else if IsIndented(line) && s.guards != [] then
      var n := |s.guards| - 1;
      Some(s.(guards := s.guards[..n] + [ReadGuardLine(s.guards[n], line[4..])]))
    else Some(s)
  }

  function ReadLines(s: Reading, lines: seq<string>): Option<Reading>
    decreases |lines|
  {
    if lines == [] then Some(s)
    else
      match ReadLine(s, lines[0])
      case None => None
      case Some(t) => ReadLines(t, lines[1..])
  }

  function Parse(text: string): Option<Reading> { ReadLines(NOTHING_READ, LineCodec.Split(text)) }

  /** `_parse_custom_yaml_mapping` as it runs. */
  method ParseMapping(text: string) returns (r: Option<Reading>)
    ensures r == Parse(text)
  {
    hide ReadLine, LineCodec.Split;
    var lines := LineCodec.Split(text);
    var s := NOTHING_READ;
    assert lines[0..] == lines;
    for i := 0 to |lines|
      invariant Parse(text) == ReadLines(s, lines[i..])
    {
      assert lines[i..][0] == lines[i] && lines[i..][1..] == lines[i + 1..];
      var next := ReadLine(s, lines[i]);
      if next.None? {
        return None;
      }
      s := next.value;
    }
    assert lines[|lines|..] == [];
    return Some(s);
  }

  // ---- The schema -------------------------------------------------------------------------------------------------

  predicate IsCommon(k: Key) {
    || k.SchemaVersionKey? || k.EventIdKey? || k.EventTypeKey? || k.TaskIdKey? || k.RevisionKey? || k.AttemptKey?
    || k.DispatchIdKey? || k.FromStateKey? || k.ToStateKey? || k.LeaseEpochKey? || k.ActorRoleKey? || k.OccurredAtKey?
    || k.SourceMessageKey? || k.EvidenceRefsKey?
  }

  predicate IsKnown(k: Key, eventType: Value) {
    || IsCommon(k)
    || (k.PayloadDigestKey? && eventType == Words(KindText(Dispatching)))
    || (k.FailureKindKey? && eventType == Words(KindText(Failing)))
    || ((k.AcceptedCommitKey? || k.IntegratedCommitKey? || k.EquivalenceMethodKey? || k.EquivalenceResultKey?
         || k.EquivalenceEvidenceKey?) && eventType == Words(KindText(Integrating)))
  }

  predicate IsEventIdText(s: string) { |s| > 4 && s[..4] == "EVT-" && '\n' !in s }

  predicate IsDigestText(s: string) {
    |s| == 71 && s[..7] == "sha256:" && forall i :: 7 <= i < 71 ==> '0' <= s[i] <= '9' || 'a' <= s[i] <= 'f'
  }

  predicate IsFailureText(s: string) {
    || s == "dispatch_start_failed" || s == "worker_failed" || s == "worker_output_failed"
    || s == "delivery_transition_failed"
  }

  predicate GuardComplete(g: GuardMap) {
    g.checked.Some? && g.reference.Some? && g.name.Some? && g.result.Some? && g.inputs.Some?
  }

  /** `_validate_state_event_schema`. */
  predicate SchemaHolds(s: Reading) {
    && (forall k: Key :: IsCommon(k) ==> k in s.top)
    && !s.extra && (forall k :: k in s.top ==> IsKnown(k, s.top[EventTypeKey]))
    && s.top[SchemaVersionKey] == Words(SCHEMA)
    && s.top[EventIdKey].Words? && IsEventIdText(s.top[EventIdKey].text)
    && s.top[RevisionKey].Number?
    && (s.top[AttemptKey].Nothing? || s.top[AttemptKey].Number?)
    && (s.top[DispatchIdKey].Nothing? || s.top[DispatchIdKey].Words?)
    && s.top[EvidenceRefsKey].Items?
    && (forall g :: g in s.guards ==> GuardComplete(g))
    && (s.top[EventTypeKey] == Words(KindText(Dispatching)) ==>
          PayloadDigestKey in s.top && s.top[PayloadDigestKey].Words? && IsDigestText(s.top[PayloadDigestKey].text))
    && (s.top[EventTypeKey] == Words(KindText(Failing)) ==>
          && FailureKindKey in s.top && s.top[FailureKindKey].Words? && IsFailureText(s.top[FailureKindKey].text)
          && s.top[EvidenceRefsKey].items != [] && forall ref :: ref in s.top[EvidenceRefsKey].items ==> IsSafeText(ref))
  }

  // ---- The approval guard -----------------------------------------------------------------------------------------

  /** A schema error, an untyped error, or the texts of the approval guard. */
  datatype Recovery = Unreadable | Broken | Recovered(approvalId: string, checkedAt: string, evidence: string)

  /** The texts that an approval guard is printed with. */
  function GuardTexts(g: Guard): Recovery
    requires g.ApprovalGuard?
  {
    Recovered(g.approvalId.text, TimeText(g.checkedAt), PathText(g.evidence))
  }

  function ApprovalMaps(gs: seq<GuardMap>): seq<GuardMap> {
    if gs == [] then []
    else (if gs[0].name == Some(Words("approval_gate")) then [gs[0]] else []) + ApprovalMaps(gs[1..])
  }

  /** The value of the last input of that key; an input without a value has the empty one. */
  function LastInput(inputs: seq<Input>, key: string): string {
    if inputs == [] then ""
    else
      var last := inputs[|inputs| - 1];
      if last.key == key then if last.value.Some? then last.value.value else "" else LastInput(inputs[..|inputs| - 1], key)
  }

  function WordsOf(v: Option<Value>): string { if v.Some? && v.value.Words? then v.value.text else "" }

  /** `_extract_approval_guard_from_existing_event`; building the guard from its texts may raise an untyped error. */
  function Extract(gs: seq<GuardMap>, scope: string): Recovery {
    var found := ApprovalMaps(gs);
    if |found| != 1 then Unreadable
    else
      var g := found[0];
      var approvalId, checkedAt, evidence := LastInput(Inputs(g), "approval_id"), WordsOf(g.checked), WordsOf(g.reference);
      if LastInput(Inputs(g), "scope") != scope || !("APR-" <= approvalId) then Unreadable
      else if g.result != Some(Words("passed")) || checkedAt == "" || evidence == "" then Unreadable
      else if '\0' in approvalId || '\r' in approvalId || !IsTimeText(checkedAt) || !IsSafeText(evidence) then Broken
      else Recovered(approvalId, checkedAt, evidence)
  }

  function RecoverGuard(text: string, scope: Scope): Recovery {
    match Parse(text)
    case None => Broken
    case Some(s) => if SchemaHolds(s) then Extract(s.guards, ScopeText(scope)) else Unreadable
  }
}
