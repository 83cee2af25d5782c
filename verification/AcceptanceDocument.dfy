/** The front matter of an acceptance record, written out (`_build_acceptance_bytes`). */
module AcceptanceDocument {
  import opened Wrappers
  import opened Texts
  import opened Approvals
  import opened Ledger
  import opened Events
  import opened EventDocument
  import opened AcceptanceFiles

  function CommitOrNull(c: Option<Commit>): string { match c case None => "null" case Some(commit) => commit.text }

  /** The line of each entry. */
  function HeadLine(a: Acceptance, h: Heading): string {
    match h
    case SchemaHeading => "schema_version: " + "agentdesk.acceptance/v2"
    case TaskHeading => "task_id: " + a.taskId.text
    case RevisionHeading => "revision: " + PrintInt(a.revision)
    case DecisionHeading => "decision: " + "accepted"
    case DispatchHeading => "reviewed_dispatch_id: " + a.reviewedDispatch.text
    case AttemptHeading => "attempt: " + PrintInt(a.attempt)
    case TypeHeading => "type: " + a.cardType.text
    case RoleHeading => "role_id: " + a.role.text
    case ReviewerRoleHeading => "reviewer_role_id: " + "PM"
    case ReviewerHeading => "reviewer_id: " + a.reviewer.text
    case LeaseHeading => "lease_epoch: " + PrintInt(a.leaseEpoch)
    case BaseHeading => "base_commit: " + a.baseCommit.text
    case ImplementationHeading => "implementation_commit: " + CommitOrNull(a.implementation)
    case ReportHeading => "report_commit: " + CommitOrNull(a.report)
    case AcceptedHeading => "accepted_commit: " + a.acceptedCommit.text
  }

  function HeadDocument(a: Acceptance, hs: seq<Heading>): seq<string> {
    if hs == [] then [] else [HeadLine(a, hs[0])] + HeadDocument(a, hs[1..])
  }

  /** A list, one item on each line. */
  function Listed(name: string, items: seq<Text>): seq<string> {
    if items == [] then [name + ": []"] else [name + ":"] + Items(items)
  }

  function Items(items: seq<Text>): seq<string> {
    if items == [] then [] else ["  - " + items[0].text] + Items(items[1..])
  }

  function FrontDocument(a: Acceptance): seq<string> {
    ["---"]
    + HeadDocument(a, [SchemaHeading, TaskHeading, RevisionHeading, DecisionHeading, DispatchHeading, AttemptHeading, TypeHeading,
                       RoleHeading, ReviewerRoleHeading, ReviewerHeading, LeaseHeading, BaseHeading, ImplementationHeading,
                       ReportHeading, AcceptedHeading])
    + ["owner_approval:", "  gate: none", "  approval_ids: []"]
    + Listed("evidence_refs", a.evidenceRefs) + Listed("residual_risks", a.notes.residualRisks)
    + ["created_at: " + TimeText(a.createdAt), "---"]
  }

  lemma {:induction false} ItemsAre(items: seq<Text>)
    ensures Bullets(items, "  ") == Items(items)
  {
    if items != [] {
      ItemsAre(items[1..]);
      assert Bullets(items, "  ") == ["  " + "- " + items[0].text] + Bullets(items[1..], "  ");
      assert "  " + "- " == "  - ";
    }
  }

  lemma ListedIs(name: string, items: seq<Text>)
    ensures ListLines(name, items) == Listed(name, items)
  {
    hide Bullets, Items;
    ItemsAre(items);
  }

  lemma FirstCaptions()
    ensures EntryIs(Caption(SchemaHeading), "schema_version: ") && EntryIs(Caption(TaskHeading), "task_id: ")
    ensures EntryIs(Caption(RevisionHeading), "revision: ") && EntryIs(Caption(DecisionHeading), "decision: ")
    ensures EntryIs(Caption(DispatchHeading), "reviewed_dispatch_id: ") && EntryIs(Caption(AttemptHeading), "attempt: ")
  {
  }

  lemma MiddleCaptions()
    ensures EntryIs(Caption(TypeHeading), "type: ") && EntryIs(Caption(RoleHeading), "role_id: ")
    ensures EntryIs(Caption(ReviewerRoleHeading), "reviewer_role_id: ") && EntryIs(Caption(ReviewerHeading), "reviewer_id: ")
  {
  }

  lemma LastCaptions()
    ensures EntryIs(Caption(LeaseHeading), "lease_epoch: ") && EntryIs(Caption(BaseHeading), "base_commit: ")
    ensures EntryIs(Caption(ImplementationHeading), "implementation_commit: ")
    ensures EntryIs(Caption(ReportHeading), "report_commit: ") && EntryIs(Caption(AcceptedHeading), "accepted_commit: ")
  {
  }

  lemma SchemaIs()
    ensures RECORD_SCHEMA == "agentdesk.acceptance/v2"
  {
  }

  /** What the record says under a heading. */
  predicate LineHolds(a: Acceptance, h: Heading) { Entry(Caption(h), HeadingText(a, h)) == HeadLine(a, h) }

  lemma FirstLinesHold(a: Acceptance, h: Heading)
    requires h.SchemaHeading? || h.TaskHeading? || h.RevisionHeading? || h.DecisionHeading? || h.DispatchHeading? || h.AttemptHeading?
    ensures LineHolds(a, h)
  {
    hide Caption, Entry, EntryIs, RECORD_SCHEMA;
    FirstCaptions();
    SchemaIs();
    var text := HeadingText(a, h);
    match h {
      case SchemaHeading => EntryStarts(Caption(h), "schema_version: ", text);
      case TaskHeading => EntryStarts(Caption(h), "task_id: ", text);
      case RevisionHeading => EntryStarts(Caption(h), "revision: ", text);
      case DecisionHeading => EntryStarts(Caption(h), "decision: ", text);
      case DispatchHeading => EntryStarts(Caption(h), "reviewed_dispatch_id: ", text);
      case AttemptHeading => EntryStarts(Caption(h), "attempt: ", text);
    }
  }

  lemma MiddleLinesHold(a: Acceptance, h: Heading)
    requires h.TypeHeading? || h.RoleHeading? || h.ReviewerRoleHeading? || h.ReviewerHeading?
    ensures LineHolds(a, h)
  {
    hide Caption, Entry, EntryIs;
    MiddleCaptions();
    var text := HeadingText(a, h);
    match h {
      case TypeHeading => EntryStarts(Caption(h), "type: ", text);
      case RoleHeading => EntryStarts(Caption(h), "role_id: ", text);
      case ReviewerRoleHeading => EntryStarts(Caption(h), "reviewer_role_id: ", text);
      case ReviewerHeading => EntryStarts(Caption(h), "reviewer_id: ", text);
    }
  }

  lemma LastLinesHold(a: Acceptance, h: Heading)
    requires h.LeaseHeading? || h.BaseHeading? || h.ImplementationHeading? || h.ReportHeading? || h.AcceptedHeading?
    ensures LineHolds(a, h)
  {
    hide Caption, Entry, EntryIs;
    LastCaptions();
    var text := HeadingText(a, h);
    match h {
      case LeaseHeading => EntryStarts(Caption(h), "lease_epoch: ", text);
      case BaseHeading => EntryStarts(Caption(h), "base_commit: ", text);
      case ImplementationHeading => EntryStarts(Caption(h), "implementation_commit: ", text);
      case ReportHeading => EntryStarts(Caption(h), "report_commit: ", text);
      case AcceptedHeading => EntryStarts(Caption(h), "accepted_commit: ", text);
    }
  }

  lemma {:induction false} HeadingsAre(a: Acceptance, hs: seq<Heading>)
    ensures HeadingLines(a, hs) == HeadDocument(a, hs)
  {
    hide Caption, HeadingText, HeadLine, Entry;
    if hs != [] {
      var h := hs[0];
      if h.SchemaHeading? || h.TaskHeading? || h.RevisionHeading? || h.DecisionHeading? || h.DispatchHeading? || h.AttemptHeading? {
        FirstLinesHold(a, h);
      } else if h.TypeHeading? || h.RoleHeading? || h.ReviewerRoleHeading? || h.ReviewerHeading? {
        MiddleLinesHold(a, h);
      } else {
        LastLinesHold(a, h);
      }
      HeadingsAre(a, hs[1..]);
    }
  }

  lemma CreatedIs(t: Instant)
    ensures Entry("created_at", TimeText(t)) == "created_at: " + TimeText(t)
  {
    hide TimeText;
    assert EntryIs("created_at", "created_at: ");
    EntryStarts("created_at", "created_at: ", TimeText(t));
    hide Entry;
  }

  /** The front matter of every record is the one above, line by line. */
  lemma FrontIsWritten(a: Acceptance)
    ensures FrontLines(a) == FrontDocument(a)
  {
    hide HeadingLines, HeadDocument, ListLines, Listed, TimeText, Entry;
    HeadingsAre(a, HEADINGS);
    ListedIs("evidence_refs", a.evidenceRefs);
    ListedIs("residual_risks", a.notes.residualRisks);
    CreatedIs(a.createdAt);
  }
}
