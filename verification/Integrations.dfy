/** Which integrations the front matter of an acceptance record lets through. */
module Integrations {
  import opened Wrappers
  import opened Texts
  import opened Approvals
  import opened ApprovalRuns
  import opened Ledger
  import opened Events
  import opened EventReader
  import opened EventReading
  import opened EventRecovery
  import opened AcceptanceFiles
  import opened AcceptanceReading
  import opened AcceptanceRecords
  import opened Transition
  import opened ControlPlaneRuns
  import opened Deviations
  import opened Replay

  /** The task, as the ledger has it, was accepted with this record. */
  predicate AcceptedWith(w: World, id: TaskId, t: Task, a: Acceptance) {
    && t.acceptancePath.Some? && t.acceptancePath.value in w.acceptances && w.acceptances[t.acceptancePath.value] == a
    && a.taskId == id && a.revision == t.revision && t.attempt == Some(a.attempt) && a.attempt >= 1
  }

  /** The record is in order, as the writer has checked. */
  predicate InOrder(a: Acceptance) {
    SpelledRecord(a) && ReadMatter(RecordText(a)).Matter? && MatterFits(ReadMatter(RecordText(a)).entries, a.taskId)
  }

  function Integrate(id: TaskId, t: Task, env: Env, e: EventId, commit: Commit, way: Option<Text>, evidence: Option<Text>): Request {
    Ask(id, t, env, e, ChangeIntegrated(commit, way, evidence))
  }

  /** What the approval of an integration would have to be for, if the record read as it was written. */
  function PlainSubject(a: Acceptance): Subject {
    Subject(a.taskId, a.revision, a.attempt, a.reviewedDispatch, Some(a.acceptedCommit))
  }

  /** No line of the lists claims a revision, an attempt, a dispatch or a commit of its own. */
  predicate Unclaimed(a: Acceptance) {
    && ClaimedEntry(a, RevisionHeading).None? && ClaimedEntry(a, AttemptHeading).None?
    && ClaimedEntry(a, DispatchHeading).None? && ClaimedEntry(a, AcceptedHeading).None?
  }

  /** What is read of a record in order whose lists claim nothing. */
  lemma UnclaimedReads(a: Acceptance)
    requires InOrder(a) && Unclaimed(a)
    ensures ReadRecord(a).Matter?
    ensures var m := ReadRecord(a).entries;
      && Lookup(m, TaskHeading) == Some(Words(a.taskId.text))
      && Lookup(m, RevisionHeading) == Some(Number(a.revision)) && Lookup(m, AttemptHeading) == Some(Number(a.attempt))
      && Lookup(m, DispatchHeading) == OwnEntry(a, DispatchHeading) && Lookup(m, AcceptedHeading) == OwnEntry(a, AcceptedHeading)
  {
    hide ReadMatter, RecordText, RecordConverts, CutTail, OwnEntry, ClaimedEntry, Undisputed, MatterAlone, MatterFits, IsShort, IsDigits, Lookup,
      CoerceEntry;
    SpelledIsHeaded(a);
    WrittenExactly(a);
    OwnEntries(a);
    hide SpelledRecord;
    RecordReads(a, TaskHeading);
    RecordReads(a, RevisionHeading);
    RecordReads(a, AttemptHeading);
    RecordReads(a, DispatchHeading);
    RecordReads(a, AcceptedHeading);
    InOrderIsShort(a);
    TaskIsRead(a);
  }

  lemma InOrderIsShort(a: Acceptance)
    requires RecordConverts(a)
    ensures IsShort(a.revision) && IsShort(a.attempt)
  {
    hide IsShort, EntryConverts, Strip;
  }

  lemma TaskIsRead(a: Acceptance)
    requires InOrder(a)
    ensures Lookup(ReadMatter(RecordText(a)).entries, TaskHeading) == Some(Words(a.taskId.text))
  {
    hide ReadMatter, RecordText, SpelledRecord, RECORD_SCHEMA;
  }

  /** A record whose references and risks stand on one line each, and in which everything converts, is in order and claims
      nothing. */
  lemma OrdinaryRecord(a: Acceptance)
    requires SpelledRecord(a) && RecordConverts(a) && OnLines(a.evidenceRefs) && OnLines(a.notes.residualRisks)
    requires forall t :: t in a.evidenceRefs || t in a.notes.residualRisks ==> BulletConverts(t.text)
    ensures InOrder(a) && Unclaimed(a) && Proofread(a, a.taskId) == Success(Some(a))
  {
    hide ReadMatter, RecordText, RecordConverts, CutTail, OwnEntry, ClaimedEntry, MatterAlone, MatterFits, BulletConverts, OnLines, SpelledRecord;
    forall h ensures ClaimedEntry(a, h).None? { UnbrokenLists(a, h); }
    UnbrokenLists(a, TaskHeading);
    assert Undisputed(a, SchemaHeading) && Undisputed(a, TaskHeading) && Undisputed(a, DecisionHeading);
    assert Undisputed(a, ReviewerRoleHeading);
    WrittenExactly(a);
  }

  /** With such a record an integration gets as far as the approval exactly if the reviewed dispatch is text that is read as
      itself, the accepted commit is not all digits, and the commit is the accepted one or comes with evidence that it is
      equivalent; the approval must then be for the accepted dispatch and commit. */
  lemma IntegrationExactly(w: World, id: TaskId, t: Task, env: Env, e: EventId, a: Acceptance, commit: Commit,
                           way: Option<Text>, evidence: Option<Text>)
    requires AcceptedWith(w, id, t, a) && InOrder(a) && Unclaimed(a) && t.revision >= 1
    ensures var r := Integrate(id, t, env, e, commit, way, evidence);
      && Constructible(r)
      && (SubjectOf(w, t, r).Success? <==>
            && EntryKept(a.reviewedDispatch.text) && !IsDigits(a.acceptedCommit.text)
            && (commit == a.acceptedCommit || (way.Some? && evidence.Some?)))
      && (SubjectOf(w, t, r).Success? ==> SubjectOf(w, t, r).value == PlainSubject(a))
  {
    hide ReadRecord, OwnEntry, EntryKept, IsDigits, IsShaText, InOrder, Unclaimed, ClaimedEntry, Lookup;
    UnclaimedReads(a);
    OwnTextsAre(a);
  }

  lemma OwnTextsAre(a: Acceptance)
    requires InOrder(a)
    ensures OwnEntry(a, AcceptedHeading).Some? && OwnEntry(a, DispatchHeading).Some?
    ensures OwnEntry(a, AcceptedHeading).value.Words? <==> !IsDigits(a.acceptedCommit.text)
    ensures OwnEntry(a, DispatchHeading).value.Words? <==> EntryKept(a.reviewedDispatch.text)
    ensures !IsDigits(a.acceptedCommit.text) ==> OwnEntry(a, AcceptedHeading) == Some(Words(a.acceptedCommit.text))
    ensures EntryKept(a.reviewedDispatch.text) ==> OwnEntry(a, DispatchHeading) == Some(Words(a.reviewedDispatch.text))
    ensures IsSafeText(a.reviewedDispatch.text) && IsShaText(a.acceptedCommit.text)
  {
    hide ReadMatter, RecordText, CoerceEntry, Strip, EntryKept, EntryConverts, Headed, Listed, IsShaText, MatterFits, IsDigits, CutTail, MatterAlone,
      Undisputed, IsShort, IsSafeText;
    WrittenExactly(a);
    FreeEntries(a);
    OwnEntries(a);
    OwnWords(a);
    CoerceEntryExactly(a.reviewedDispatch.text);
  }

  /** So a task whose reviewed dispatch is all digits is never integrated. */
  lemma DigitsAreNotIntegrated(w: World, id: TaskId, t: Task, env: Env, e: EventId, a: Acceptance, commit: Commit,
                               way: Option<Text>, evidence: Option<Text>)
    requires AcceptedWith(w, id, t, a) && InOrder(a) && Unclaimed(a) && t.revision >= 1
    requires id in w.ledger && w.ledger[id] == t && e !in w.events && IsDigits(a.reviewedDispatch.text)
    ensures PlannedTask(w, Integrate(id, t, env, e, commit, way, evidence), env).None?
  {
    hide InOrder, Unclaimed, AcceptedWith, IsDigits, SubjectOf, Prepare, CasHolds, Constructible;
    IntegrationExactly(w, id, t, env, e, a, commit, way, evidence);
    NoSubjectNoPlan(w, Integrate(id, t, env, e, commit, way, evidence), env);
  }

  lemma NoSubjectNoPlan(w: World, r: Request, env: Env)
    requires r.cas.taskId in w.ledger && r.payload.ChangeIntegrated?
    requires Constructible(r) ==> SubjectOf(w, w.ledger[r.cas.taskId], r).Failure?
    ensures PlannedTask(w, r, env).None?
  {
    hide Prepare, PlanFresh, SubjectOf, Constructible, CasHolds, EventOf, OutboxOf, After, FreshAcceptance, Orphans, PathFits;
    var t := w.ledger[r.cas.taskId];
    if Constructible(r) {
      assert GrantFor(w, t, r, env).Failure?;
      hide GrantFor;
      if Prepare(w, r, env).Write? {
        WriteIsFresh(w, r, env);
        FreshMeans(w, t, r, env);
      }
    }
  }

  // ---- A record that reads as another one ---------------------------------------------------------------------------

  /** The one reference of this record claims that another commit was accepted. */
  predicate Forged(a: Acceptance, front: string, other: Commit) {
    && a.evidenceRefs == [ForgingReference(front, other.text)] && a.notes.residualRisks == []
    && IsReferenceText(front) && IsUnbroken(front) && BulletConverts(front) && IsShaText(other.text) && !IsDigits(other.text)
    && SpelledRecord(a) && RecordConverts(a) && EntryKept(a.reviewedDispatch.text)
  }

  /** The writer finds nothing wrong with it, and it reads as the acceptance of the other commit. */
  lemma ForgedReadsAsOther(a: Acceptance, front: string, other: Commit)
    requires Forged(a, front, other)
    ensures Proofread(a, a.taskId) == Success(Some(a)) && ReadRecord(a).Matter?
    ensures var m := ReadRecord(a).entries;
      && Lookup(m, TaskHeading) == Some(Words(a.taskId.text))
      && Lookup(m, RevisionHeading) == Some(Number(a.revision)) && Lookup(m, AttemptHeading) == Some(Number(a.attempt))
      && Lookup(m, DispatchHeading) == Some(Words(a.reviewedDispatch.text))
      && Lookup(m, AcceptedHeading) == Some(Words(other.text))
  {
    hide ReadMatter, RecordText, RecordConverts, CutTail, OwnEntry, ClaimedEntry, MatterAlone, MatterFits, IsShort, IsDigits, Lookup,
      CoerceEntry, IsShaText, BulletConverts, IsReferenceText, IsUnbroken, SpelledRecord, ForgingReference, EntryKept;
    forall h ensures ClaimedEntry(a, h) == (if h.AcceptedHeading? then Some(Words(other.text)) else None) && MatterAlone(CutTail(a)).Some? {
      ForgedCommit(a, front, other.text, h);
    }
    SpelledIsHeaded(a);
    assert Undisputed(a, SchemaHeading) && Undisputed(a, TaskHeading) && Undisputed(a, DecisionHeading);
    assert Undisputed(a, ReviewerRoleHeading);
    WrittenExactly(a);
    assert Proofread(a, a.taskId) == Success(Some(a));
    RecordReads(a, TaskHeading);
    RecordReads(a, RevisionHeading);
    RecordReads(a, AttemptHeading);
    RecordReads(a, DispatchHeading);
    RecordReads(a, AcceptedHeading);
    OwnEntries(a);
    InOrderIsShort(a);
    CoerceEntryExactly(a.reviewedDispatch.text);
  }

  /** What such a record leads the gate to ask for. */
  lemma ForgedSubject(w: World, id: TaskId, t: Task, env: Env, e: EventId, a: Acceptance, front: string, other: Commit, commit: Commit)
    requires AcceptedWith(w, id, t, a) && Forged(a, front, other) && t.revision >= 1
    ensures var r := Integrate(id, t, env, e, commit, None, None);
      && Constructible(r)
      && SubjectOf(w, t, r) == if commit == other then Success(PlainSubject(a).(acceptedCommit := Some(other))) else Failure(SchemaError)
  {
    hide ReadRecord, Forged, IsShaText, IsSafeText, Lookup, Proofread;
    ForgedReadsAsOther(a, front, other);
    ForgedTexts(a, front, other);
    SafeIsNonempty(a.reviewedDispatch.text);
  }

  lemma SafeIsNonempty(s: string)
    requires IsSafeText(s)
    ensures s != ""
  {
  }

  /** With that record, and an approval for it, the other commit is integrated without any evidence of equivalence. */
  lemma OtherIsIntegrated(w: World, id: TaskId, env: Env, e: EventId, a: Acceptance, front: string, other: Commit)
    requires id in w.ledger && e !in w.events && w.ledger[id].state.Accepted? && w.ledger[id].revision >= 1
    requires AcceptedWith(w, id, w.ledger[id], a) && Forged(a, front, other)
    requires Require(w.approvals, env.git,
                     CheckRequest(IntegrateScope, PlainSubject(a).(acceptedCommit := Some(other)), env.git.head), env.now).Success?
    ensures PlannedTask(w, Integrate(id, w.ledger[id], env, e, other, None, None), env)
         == Some(After(w.ledger[id], ChangeIntegrated(other, None, None), env.Now()))
  {
    hide SubjectOf, ReadRecord, Forged, Require, After, EventOf, PlanReplay, AcceptedWith, PlainSubject;
    ForgedSubject(w, id, w.ledger[id], env, e, a, front, other, other);
    RevisionStays(w, id, a);
  }

  lemma RevisionStays(w: World, id: TaskId, a: Acceptance)
    requires id in w.ledger && AcceptedWith(w, id, w.ledger[id], a)
    ensures a.revision == w.ledger[id].revision && a.taskId == id
  {
  }

  /** And the accepted one is refused. */
  lemma AcceptedIsRefused(w: World, id: TaskId, env: Env, e: EventId, a: Acceptance, front: string, other: Commit)
    requires id in w.ledger && e !in w.events && w.ledger[id].revision >= 1
    requires AcceptedWith(w, id, w.ledger[id], a) && Forged(a, front, other) && a.acceptedCommit != other
    ensures PlannedTask(w, Integrate(id, w.ledger[id], env, e, a.acceptedCommit, None, None), env).None?
  {
    hide SubjectOf, ReadRecord, Forged, Prepare, AcceptedWith, CasHolds, Constructible;
    ForgedSubject(w, id, w.ledger[id], env, e, a, front, other, a.acceptedCommit);
    NoSubjectNoPlan(w, Integrate(id, w.ledger[id], env, e, a.acceptedCommit, None, None), env);
  }

  lemma ForgedTexts(a: Acceptance, front: string, other: Commit)
    requires Forged(a, front, other)
    ensures IsShaText(other.text) && IsSafeText(a.reviewedDispatch.text)
  {
    hide IsShaText, IsSafeText, IsReferenceText, IsUnbroken, BulletConverts, RecordConverts, Headed, Listed;
  }
}
