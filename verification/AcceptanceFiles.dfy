/** The acceptance record as a file: its text, and its front matter as it is read back
    (`_build_acceptance_bytes`, `_validate_acceptance_frontmatter`, `_read_acceptance_frontmatter`). */
module AcceptanceFiles {
  import opened Wrappers
  import opened Texts
  import opened Approvals
  import opened Ledger
  import opened Events
  import opened EventReader

  // ---- The text ---------------------------------------------------------------------------------------------------

  /** The entries that a record must have, in the order in which they are written. */
  datatype Heading =
    | SchemaHeading | TaskHeading | RevisionHeading | DecisionHeading | DispatchHeading | AttemptHeading | TypeHeading
    | RoleHeading | ReviewerRoleHeading | ReviewerHeading | LeaseHeading | BaseHeading | ImplementationHeading
    | ReportHeading | AcceptedHeading

  const HEADINGS: seq<Heading> := [
    SchemaHeading, TaskHeading, RevisionHeading, DecisionHeading, DispatchHeading, AttemptHeading, TypeHeading,
    RoleHeading, ReviewerRoleHeading, ReviewerHeading, LeaseHeading, BaseHeading, ImplementationHeading,
    ReportHeading, AcceptedHeading]

  function Caption(h: Heading): string {
    match h
    case SchemaHeading => "schema_version"
    case TaskHeading => "task_id"
    case RevisionHeading => "revision"
    case DecisionHeading => "decision"
    case DispatchHeading => "reviewed_dispatch_id"
    case AttemptHeading => "attempt"
    case TypeHeading => "type"
    case RoleHeading => "role_id"
    case ReviewerRoleHeading => "reviewer_role_id"
    case ReviewerHeading => "reviewer_id"
    case LeaseHeading => "lease_epoch"
    case BaseHeading => "base_commit"
    case ImplementationHeading => "implementation_commit"
    case ReportHeading => "report_commit"
    case AcceptedHeading => "accepted_commit"
  }

  const RECORD_SCHEMA := "agentdesk.acceptance/v2"

  function OptionalCommit(c: Option<Commit>): string { if c.Some? then c.value.text else "null" }

  /** The texts stand in the record as they are. */
  function HeadingText(a: Acceptance, h: Heading): string {
    match h
    case SchemaHeading => RECORD_SCHEMA
    case TaskHeading => a.taskId.text
    case RevisionHeading => PrintInt(a.revision)
    case DecisionHeading => "accepted"
    case DispatchHeading => a.reviewedDispatch.text
    case AttemptHeading => PrintInt(a.attempt)
    case TypeHeading => a.cardType.text
    case RoleHeading => a.role.text
    case ReviewerRoleHeading => "PM"
    case ReviewerHeading => a.reviewer.text
    case LeaseHeading => PrintInt(a.leaseEpoch)
    case BaseHeading => a.baseCommit.text
    case ImplementationHeading => OptionalCommit(a.implementation)
    case ReportHeading => OptionalCommit(a.report)
    case AcceptedHeading => a.acceptedCommit.text
  }

  function HeadingLines(a: Acceptance, hs: seq<Heading>): seq<string> {
    if hs == [] then [] else [Entry(Caption(hs[0]), HeadingText(a, hs[0]))] + HeadingLines(a, hs[1..])
  }

  const APPROVAL_LINES := ["owner_approval:", "  gate: none", "  approval_ids: []"]

  function Bullets(items: seq<Text>, indent: string): seq<string> {
    seq(|items|, i requires 0 <= i < |items| => indent + "- " + items[i].text)
  }

  function ListLines(name: string, items: seq<Text>): seq<string> {
    if items == [] then [name + ": []"] else [name + ":"] + Bullets(items, "  ")
  }

  /** The lists and the time, up to the rule that ends the front matter. */
  function LowerLines(a: Acceptance): seq<string> {
    ListLines("evidence_refs", a.evidenceRefs) + ListLines("residual_risks", a.notes.residualRisks)
    + [Entry("created_at", TimeText(a.createdAt)), "---"]
  }

  function Numbered(items: seq<Text>): seq<string> {
    seq(|items|, i requires 0 <= i < |items| => PrintInt(i + 1) + ". " + items[i].text)
  }

  function CommitOrMark(c: Option<Commit>): string { if c.Some? then c.value.text else "?" }

  function BodyLines(a: Acceptance): seq<string> {
    ["",
     "# " + a.taskId.text + " — Revision " + PrintInt(a.revision) + ", Attempt " + PrintInt(a.attempt)
     + ", Review " + PrintInt(a.review),
     "", "## Decision", "", "**Accepted.**  The delivery meets all acceptance criteria.", "", "## Scope Review", "",
     "Implementation commit `" + CommitOrMark(a.implementation) + "` and report commit `" + CommitOrMark(a.report)
     + "` have been reviewed against the task specification.",
     "", "## Criteria And Checks", ""]
    + Numbered(a.notes.criteriaEvidence)
    + ["", "## Rationale And Next Integration Step", "", a.notes.rationale.text, ""]
    + if a.notes.residualRisks == [] then []
      else ["### Residual Risks", ""] + Bullets(a.notes.residualRisks, "") + [""]
  }

  function FrontLines(a: Acceptance): seq<string> {
    ["---"] + HeadingLines(a, HEADINGS) + APPROVAL_LINES + LowerLines(a)
  }

  function RecordText(a: Acceptance): string { Lines(FrontLines(a) + BodyLines(a)) }

  // ---- Reading it back --------------------------------------------------------------------------------------------

  /** No front matter, an untyped error while reading it, or its entries. */
  datatype Matter = NoMatter | BrokenMatter | Matter(entries: map<Heading, Value>)

  function FindHeading(s: string, hs: seq<Heading>): (h: Option<Heading>)
    ensures h.Some? ==> Caption(h.value) == s
    ensures h.None? ==> forall heading :: heading in hs ==> Caption(heading) != s
  {
    if hs == [] then None else if Caption(hs[0]) == s then Some(hs[0]) else FindHeading(s, hs[1..])
  }

  /** Numbers, truth values and null are converted, where `int` does not raise. */
  function CoerceEntry(v: string): Option<Value> {
    if v == "null" then Some(Nothing)
    else if v == "true" then Some(Flag(true))
    else if v == "false" then Some(Flag(false))
    else if IsDigits(v) then Converted(v, 1)
    else if v != "" && v[0] == '-' && IsDigits(v[1..]) then Converted(v[1..], -1)
    else Some(Words(v))
  }

  predicate IsMatterEntry(s: string) { s != "" && s[0] != '#' && ':' in s }

  /** A line, however indented, up to its first colon and from there on; the last one of its key wins. */
  function ReadMatterLine(m: map<Heading, Value>, line: string): Option<map<Heading, Value>> {
    var s := Strip(line);
    if !IsMatterEntry(s) then Some(m)
    else
      var (key, val) := Partition(s);
      match CoerceEntry(val)
      case None => None
      case Some(v) =>
        var h := FindHeading(key, HEADINGS);
        Some(if h.Some? then m[h.value := v] else m)
  }

  function ReadMatterLines(m: map<Heading, Value>, lines: seq<string>): Option<map<Heading, Value>>
    decreases |lines|
  {
    if lines == [] then Some(m)
    else
      match ReadMatterLine(m, lines[0])
      case None => None
      case Some(n) => ReadMatterLines(n, lines[1..])
  }

  predicate IsRule(line: string) { Strip(line) == "---" }

  /** The first rule from number `i` on, or the number of lines. */
  function Fence(lines: seq<string>, i: nat): (n: nat)
    requires i <= |lines|
    ensures i <= n <= |lines| && (n < |lines| ==> IsRule(lines[n])) && forall j :: i <= j < n ==> !IsRule(lines[j])
    decreases |lines| - i
  {
    if i == |lines| || IsRule(lines[i]) then i else Fence(lines, i + 1)
  }

  function ReadMatter(text: string): Matter {
    var lines := BreakLines(text);
    if |lines| < 2 || !IsRule(lines[0]) || Fence(lines, 1) == |lines| then NoMatter
    else
      match ReadMatterLines(map[], lines[1..Fence(lines, 1)])
      case None => BrokenMatter
      case Some(m) => Matter(m)
  }

  /** The front matter of a stored record. */
  function ReadRecord(a: Acceptance): Matter { ReadMatter(Translated(RecordText(a))) }

  /** `_read_acceptance_frontmatter` as it runs. */
  method ReadFrontMatter(text: string) returns (r: Matter)
    ensures r == ReadMatter(text)
  {
    hide ReadMatterLine, BreakLines, IsRule;
    var lines := BreakLines(text);
    if |lines| < 2 || !IsRule(lines[0]) {
      return NoMatter;
    }
    var end := 1;
    while end < |lines| && !IsRule(lines[end])
      invariant 1 <= end <= |lines| && Fence(lines, 1) == Fence(lines, end)
    {
      end := end + 1;
    }
    if end == |lines| {
      return NoMatter;
    }
    var m: map<Heading, Value> := map[];
    ghost var front := lines[1..end];
    assert front[0..] == front;
    for i := 1 to end
      invariant ReadMatterLines(map[], front) == ReadMatterLines(m, front[i - 1..])
    {
      assert front[i - 1..][0] == lines[i] && front[i - 1..][1..] == front[i..];
      var next := ReadMatterLine(m, lines[i]);
      if next.None? {
        return BrokenMatter;
      }
      m := next.value;
    }
    assert front[end - 1..] == [];
    return Matter(m);
  }

  // ---- The checks on what is read ---------------------------------------------------------------------------------

  /** What the writer demands of its own record: all entries, and four of their values. */
  predicate MatterFits(m: map<Heading, Value>, id: TaskId) {
    && (forall h: Heading :: h in m)
    && m[SchemaHeading] == Words(RECORD_SCHEMA) && m[DecisionHeading] == Words("accepted")
    && m[TaskHeading] == Words(id.text) && m[ReviewerRoleHeading] == Words("PM")
  }
}
