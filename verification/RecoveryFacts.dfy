/** What has to hold for a dispatch to be recovered, said of the request, the ledger, the dispatch evidence, the process
    table and the stored events (`apply_owner_loss_recovery_transition`). */
module RecoveryFacts {
  import opened Wrappers
  import opened Approvals
  import opened Ledger
  import opened Events
  import opened EventReading
  import opened EventDispatch
  import opened Transition
  import opened History
  import opened ControlPlane
  import opened ControlPlaneRuns
  import Evidence = DispatchReceipts
  import opened Liveness
  import opened LivenessFacts
  import opened OwnerLoss

  /** The request reports this failure of this task, as the check has it. */
  predicate IsReport(r: Request, c: Check) {
    && r.payload.DispatchFailed? && r.payload.failure == c.failure && r.eventId == c.eventId && r.evidenceRefs == c.evidenceRefs
    && (r.cas.taskId, r.cas.revision, r.cas.state) == (c.taskId, c.revision, c.state)
  }

  /** The task is being worked on, in this attempt and under this dispatch. */
  predicate IsUnderway(t: Task, c: Check) {
    && (t.state == State.Dispatched || t.state == InProgress) && (t.state, t.revision) == (c.state, c.revision)
    && t.attempt == Some(c.attempt) && t.dispatch.Some? && t.dispatch.value.id == c.dispatchId
  }

  /** Its receipt is the one of this attempt and generation and got as far as a supervisor or worker; it is not finalized. */
  predicate IsOnRecord(e: Evidence.Store, c: Check) {
    && c.dispatchId in e.receipts && c.dispatchId !in e.tombstones
    && var receipt := e.receipts[c.dispatchId];
    && (receipt.identity.taskId, receipt.identity.revision) == (c.taskId, c.revision)
    && (receipt.identity.attempt, receipt.identity.dispatchId) == (c.attempt, c.dispatchId)
    && receipt.generation == c.generation
    && (receipt.phase == Evidence.SupervisorReady || receipt.phase == Evidence.WorkerStarted)
  }

  /** Nobody who ever had to do with it is running any more. */
  predicate NobodyRuns(table: Snapshot, receipt: Evidence.Receipt, windows: bool) {
    && SeenGone(table, receipt.creator, receipt.boot)
    && HasSupervisor(receipt) && if windows then JobGone(table, receipt) else DispatchGone(table, receipt)
  }

  /** The ledger knows of nothing that was delivered. */
  predicate NothingDelivered(t: Task) {
    t.delivery == None && t.implementation == None && t.report == None && t.acceptedCommit == None && t.integratedCommit == None
  }

  /** There is an event of this kind about this attempt. */
  predicate HasRecord(w: World, c: Check, kind: Kind) {
    exists id :: id in w.events && IsRecord(w.events[id], c, kind)
  }

  predicate IsRecord(e: Event, c: Check, kind: Kind) {
    && e.kind == kind && (e.taskId, e.revision) == (c.taskId, c.revision)
    && (e.attempt, e.dispatchId) == (Some(c.attempt), Some(c.dispatchId))
  }

  /** The events say that it was dispatched, and acknowledged if it is in progress, and no more. */
  predicate OnlyBegun(w: World, c: Check) {
    && HasRecord(w, c, Dispatching) && (HasRecord(w, c, Acknowledgement) <==> c.state == InProgress)
    && !HasRecord(w, c, Submission) && !HasRecord(w, c, Acceptation) && !HasRecord(w, c, Integrating) && !HasRecord(w, c, Failing)
  }

  // ---- Part by part -----------------------------------------------------------------------------------------------

  lemma DeadExactly(s: Scene, c: Check, table: Snapshot)
    requires c.dispatchId in s.evidence.receipts && Steady(s.os, table, s.look)
    ensures OwnerDead(s, c) <==> NobodyRuns(table, s.evidence.receipts[c.dispatchId], s.windows)
  {
    hide Probe, ProbeDispatch, SeenGone, SeenAlive, DispatchGone, JobGone, DispatchAlive, JobAlive, Steady;
    var receipt := s.evidence.receipts[c.dispatchId];
    ProcessExactly(s.os, table, s.look, receipt.creator, receipt.boot, true);
    var t := Probe(s.os, s.look, receipt.creator, receipt.boot, None, true).1;
    SteadyLater(s.os, table, s.look, t);
    DispatchExactly(s.os, table, t, receipt, true);
    JobDispatchExactly(s.os, table, t, receipt, true);
  }

  lemma LostExactly(t: Task, s: Scene, c: Check, table: Snapshot)
    requires CheckOk(c) && Steady(s.os, table, s.look)
    ensures IsLost(t, s, c) <==>
      IsUnderway(t, c) && IsOnRecord(s.evidence, c) && NobodyRuns(table, s.evidence.receipts[c.dispatchId], s.windows)
  {
    hide OwnerDead, NobodyRuns, Steady;
    if c.dispatchId in s.evidence.receipts { DeadExactly(s, c, table); }
  }

  lemma BegunExactly(w: World, c: Check)
    ensures RecordsFit(w, c) <==> OnlyBegun(w, c)
  {
    forall kind ensures Recorded(w, c, kind) <==> HasRecord(w, c, kind) {
      forall id | id in w.events
        ensures Names(w.events[id], c) && w.events[id].kind == kind <==> IsRecord(w.events[id], c, kind)
      {
      }
      hide IsRecord, Names;
    }
    hide Recorded, HasRecord;
  }

  lemma EventsSeen(w: World, c: Check)
    requires AllUnspoiled(w) && !Unconvertible(w) && Kept(c.dispatchId.text)
    ensures EventsFit(w, c) <==> OnlyBegun(w, c) && !IdUsed(w, c)
  {
    hide AllUnspoiled, HasEvent, Recorded, IdUsed, Kept, Unconvertible, OnlyBegun;
    BegunExactly(w, c);
    SeenIfKept(w, c, Dispatching);
    SeenIfKept(w, c, Acknowledgement);
    SeenIfKept(w, c, Submission);
    SeenIfKept(w, c, Acceptation);
    SeenIfKept(w, c, Integrating);
    SeenIfKept(w, c, Failing);
  }

  // ---- The whole --------------------------------------------------------------------------------------------------

  /** The report is about a dispatch under way, its receipt is on record and nothing was delivered. */
  predicate WasUnderway(t: Task, r: Request, s: Scene, c: Check) {
    IsReport(r, c) && IsUnderway(t, c) && IsOnRecord(s.evidence, c) && NothingDelivered(t)
  }

  lemma CheckedWas(w: World, r: Request, c: Check, s: Scene)
    requires CheckOk(c) && Bound(r, c) && c.taskId in w.ledger && SecondCheck(w, w.ledger[c.taskId], s, c)
    ensures WasUnderway(w.ledger[c.taskId], r, s, c)
    ensures AllUnspoiled(w) && Kept(c.dispatchId.text) ==> OnlyBegun(w, c)
  {
    hide AllUnspoiled, EventsFit, Kept, OwnerDead, Unconvertible, OnlyBegun;
    if AllUnspoiled(w) && Kept(c.dispatchId.text) { EventsSeen(w, c); }
  }

  /** A recovery that changes anything was of such a dispatch. */
  lemma RecoveredWas(w: World, r: Request, c: Check, s: Scene, budget: nat)
    requires Constructible(r) && CheckOk(c) && Recover(w, r, c, s, budget).0 != w
    ensures c.taskId in w.ledger && WasUnderway(w.ledger[c.taskId], r, s, c)
    ensures AllUnspoiled(w) && Kept(c.dispatchId.text) ==> OnlyBegun(w, c)
  {
    hide Recover, SecondCheck, WasUnderway, Bound, AllUnspoiled, Kept, OnlyBegun, Constructible, CheckOk;
    RecoveryMeans(w, r, c, s, budget);
    CheckedWas(w, r, c, s);
  }

  /** Events that convert, claim nothing and give the dispatch id back. */
  predicate Legible(w: World, c: Check) { AllUnspoiled(w) && AllConvert(w) && Apart(w, c) && Kept(c.dispatchId.text) }

  lemma CheckedExactly(w: World, r: Request, c: Check, s: Scene, table: Snapshot)
    requires CheckOk(c) && c.taskId in w.ledger && Legible(w, c) && Steady(s.os, table, s.look)
    ensures Bound(r, c) && SecondCheck(w, w.ledger[c.taskId], s, c) <==>
      && WasUnderway(w.ledger[c.taskId], r, s, c) && NobodyRuns(table, s.evidence.receipts[c.dispatchId], s.windows)
      && OnlyBegun(w, c)
  {
    var t := w.ledger[c.taskId];
    assert NothingDelivered(t) <==> Undelivered(t);
    hide OnlyBegun, IsLost, EventsFit, IsUnderway, NobodyRuns, NothingDelivered, Undelivered, AllUnspoiled, AllConvert, Apart, Kept, Steady,
      Unconvertible, IdUsed;
    ReadableExactly(w);
    IdUnused(w, c);
    LostExactly(t, s, c, table);
    EventsSeen(w, c);
  }

  lemma UnusedName(w: World, c: Check)
    requires Legible(w, c)
    ensures c.eventId !in w.events
  {
  }

  /** While the processes hold still and the events are legible, a report about a task that is not ready succeeds exactly if
      the dispatch is under way and on record, nobody runs it, nothing was delivered and the events say that it has only
      begun. */
  lemma RecoveredExactly(w: World, r: Request, c: Check, s: Scene, table: Snapshot)
    requires Constructible(r) && CheckOk(c) && c.taskId in w.ledger && !w.ledger[c.taskId].state.Ready?
    requires r.dispatchCas == Some(DispatchCas(c.dispatchId, c.attempt)) && forall g :: g in r.guards ==> !g.ApprovalGuard?
    requires Legible(w, c) && Steady(s.os, table, s.look)
    ensures Recover(w, r, c, s, 4).1.Success? <==>
      && WasUnderway(w.ledger[c.taskId], r, s, c) && NobodyRuns(table, s.evidence.receipts[c.dispatchId], s.windows)
      && OnlyBegun(w, c)
  {
    hide SecondCheck, OnlyBegun, WasUnderway, NobodyRuns, Legible, Steady, Bound, Constructible, Execute, CheckOk, IsOnRecord;
    CheckedExactly(w, r, c, s, table);
    UnusedName(w, c);
    if Bound(r, c) {
      hide Recover;
      RecoveryDecided(w, r, c, s);
    }
  }
}
