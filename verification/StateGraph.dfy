/** The sixteen transitions, kind by kind: which states they lead from and to, and what each commit sets in the task and
    writes as evidence. */
module StateGraph {
  import opened Wrappers
  import opened Approvals
  import opened Ledger
  import opened Events
  import opened Transition
  import opened History

  // ---- The graph --------------------------------------------------------------------------------------------------

  /** The edges of the state graph (`_TRANSITION_SPECS`); a task that is there already is not brought there again. */
  predicate Edge(kind: Kind, from: State, to: State) {
    match kind
    case Specification => from.Draft? && to.Ready?
    case Dispatching => from.Ready? && to.Dispatched?
    case Acknowledgement => from.Dispatched? && to.InProgress?
    case Submission => from.InProgress? && to.ReviewReady?
    case Acceptation => from.ReviewReady? && to.Accepted?
    case Return => from.ReviewReady? && to.Returned?
    case Requeue => from.Returned? && to.Ready?
    case Integrating => from.Accepted? && to.Integrated?
    case IntegrationFailing => from.Accepted? && to.Blocked?
    case Blocking => !from.Blocked? && !from.Integrated? && !from.Cancelled? && !from.Superseded? && to.Blocked?
    case Resolution =>
      from.Blocked? && (to.Draft? || to.Ready? || to.Dispatched? || to.InProgress? || to.ReviewReady? || to.Returned?)
    case Rescoping => from.Blocked? && to.Draft?
    case BlockerCancelling => from.Blocked? && to.Cancelled?
    case Cancelling => !from.Integrated? && !from.Cancelled? && !from.Superseded? && to.Cancelled?
    case Superseding => !from.Integrated? && !from.Cancelled? && !from.Superseded? && to.Superseded?
    case Failing => (from.Dispatched? || from.InProgress?) && to.Ready?
  }

  /** The event type that goes with each payload. */
  predicate IsFor(kind: Kind, p: Payload) {
    match kind
    case Specification => p.TaskSpecified?
    case Dispatching => p.TaskDispatched?
    case Acknowledgement => p.DispatchAcknowledged?
    case Submission => p.DeliverySubmission?
    case Acceptation => p.DeliveryAcceptance?
    case Return => p.DeliveryReturn?
    case Requeue => p.TaskRequeued?
    case Integrating => p.ChangeIntegrated?
    case IntegrationFailing => p.IntegrationFailed?
    case Blocking => p.TaskBlocked?
    case Resolution => p.BlockerResolved?
    case Rescoping => p.BlockerRescoped?
    case BlockerCancelling => p.BlockerCancelled?
    case Cancelling => p.TaskCancelled?
    case Superseding => p.TaskSuperseded?
    case Failing => p.DispatchFailed?
  }

  /** A payload leads from one state to another along the edge of its event type; a resolved blocker leads where its
      payload says. */
  predicate Leads(p: Payload, from: State, to: State) {
    exists kind :: IsFor(kind, p) && Edge(kind, from, to) && (p.BlockerResolved? ==> to == p.resumeTo)
  }

  /** Every commit follows an edge of the graph, and its event says so. */
  lemma CommitFollowsEdge(t: Task, c: Entry)
    requires Legit(t, c)
    ensures IsFor(c.event.kind, c.Payload()) && Edge(c.event.kind, t.state, c.after.state)
    ensures c.Payload().BlockerResolved? ==> c.after.state == c.Payload().resumeTo
    ensures c.event.fromState == t.state && c.event.toState == c.after.state
  {
    hide IntegrationFits, AcceptanceFits, GrantFits;
  }

  // ---- What each commit sets ----------------------------------------------------------------------------------------

  function Stamped(t: Task, now: Instant, stamp: Stamp): map<Stamp, Instant> { t.stamps[UpdatedAt := now][stamp := now] }

  /** Nothing is changed but the fields that are named; every commit sets the time of the last update. */
  predicate Sets(kind: Kind, p: Payload, t: Task, u: Task, now: Instant)
    requires IsFor(kind, p)
  {
    match kind
    case Specification => u == t.(state := Ready, stamps := Stamped(t, now, ReadyAt))
    case Dispatching =>
      var attempt := (if t.attempt.Some? then t.attempt.value else 0) + 1;
      && p.args.newAttempt == attempt
      && u == t.(
           state := State.Dispatched, attempt := Some(attempt), reportPath := Some(p.args.reportPath),
           dispatch := Some(Dispatch(p.args.dispatchId, attempt, p.args.role, p.args.baseCommit, p.args.branch, now,
                                     p.args.model)),
           stamps := Stamped(t, now, DispatchedAt))
    case Acknowledgement => u == t.(state := InProgress, stamps := Stamped(t, now, StartedAt))
    case Submission =>
      u == t.(state := ReviewReady, implementation := Some(p.implementation), report := Some(p.report),
              delivery := Some(DeliverySubmitted), stamps := Stamped(t, now, DeliveredAt))
    case Acceptation =>
      u == t.(state := Accepted, acceptedCommit := Some(p.commit), acceptancePath := p.path,
              delivery := Some(DeliveryAccepted), dispatch := None, stamps := Stamped(t, now, AcceptedAt))
    case Return =>
      u == t.(state := Returned, delivery := Some(DeliveryRejected), dispatch := None, stamps := t.stamps[UpdatedAt := now])
    case Requeue => u == t.(state := Ready, dispatch := None, stamps := t.stamps[UpdatedAt := now])
    case Integrating =>
      u == t.(state := Integrated, integratedCommit := Some(p.integrated), stamps := Stamped(t, now, IntegratedAt))
    case IntegrationFailing => IsBlockedBy(t, u, p.blocker, now)
    case Blocking => IsBlockedBy(t, u, p.blocker, now)
    case Resolution =>
      u == t.(state := p.resumeTo, blocker := None, reviewAfter := None, stamps := t.stamps[UpdatedAt := now])
    case Rescoping =>
      && p.newRevision == t.revision + 1
      && u == t.(
           state := Draft, revision := t.revision + 1, blocker := None, reviewAfter := None, dispatch := None,
           reportPath := None, delivery := None, implementation := None, report := None, acceptedCommit := None,
           acceptancePath := None, stamps := t.stamps[UpdatedAt := now])
    case BlockerCancelling =>
      u == t.(state := Cancelled, blocker := None, reviewAfter := None, dispatch := None,
              stamps := Stamped(t, now, CancelledAt))
    case Cancelling => u == t.(state := Cancelled, dispatch := None, stamps := Stamped(t, now, CancelledAt))
    case Superseding =>
      u == t.(state := Superseded, supersededBy := Some(p.successor), dispatch := None,
              stamps := Stamped(t, now, SupersededAt))
    case Failing =>
      u == t.(state := Ready, dispatch := None, reportPath := None, delivery := None, implementation := None,
              report := None, stamps := t.stamps[UpdatedAt := now])
  }

  /** Blocking keeps the dispatch only of an attempt that is said to be valid. */
  predicate IsBlockedBy(t: Task, u: Task, blocker: Blocker, now: Instant) {
    u == t.(state := Blocked, blocker := Some(blocker), stamps := Stamped(t, now, BlockedAt),
            dispatch := if blocker.attemptValid == Some(true) then t.dispatch else None)
  }

  /** Every commit sets exactly the fields of its kind. */
  lemma CommitSets(t: Task, c: Entry)
    requires Legit(t, c)
    ensures IsFor(c.event.kind, c.Payload()) && Sets(c.event.kind, c.Payload(), t, c.after, FloorSecond(c.env.now))
  {
    hide IntegrationFits, AcceptanceFits, GrantFits;
  }

  // ---- What each commit writes ---------------------------------------------------------------------------------------

  /** The event: what it is about, who caused it and when, and what its kind adds. */
  predicate Reports(kind: Kind, p: Payload, t: Task, e: Event, c: Entry)
    requires IsFor(kind, p)
  {
    && e.id == c.r.eventId && e.taskId == c.r.cas.taskId && e.revision == t.revision && e.fromState == t.state
    && e.toState == c.after.state && e.leaseEpoch == c.env.leaseEpoch && e.occurredAt == FloorSecond(c.env.now)
    && e.source == c.r.source && e.evidenceRefs == c.r.evidenceRefs
    && (if kind.Dispatching? then
          e.attempt == Some(p.args.newAttempt) && e.dispatchId == Some(p.args.dispatchId)
          && c.outbox.Some? && e.extra == Digest(c.outbox.value)
        else
          e.attempt == t.attempt && e.dispatchId == (if t.dispatch.Some? then Some(t.dispatch.value.id) else None)
          && e.extra == if kind.Failing? then FailureKind(p.failure)
                        else if kind.Integrating? then
                          Integration(p.integrated, t.acceptedCommit,
                                      if p.equivalenceMethod.Some?
                                      then Some((p.equivalenceMethod.value, p.equivalenceEvidence)) else None)
                        else NoExtra)
  }

  lemma EventReports(t: Task, c: Entry)
    requires Legit(t, c)
    ensures IsFor(c.event.kind, c.Payload()) && Reports(c.event.kind, c.Payload(), t, c.event, c)
  {
    hide IntegrationFits, AcceptanceFits, After;
    StatesReport(t, c);
  }

  lemma StatesReport(t: Task, c: Entry)
    requires Legit(t, c)
    ensures c.event.toState == c.after.state
  {
    hide IntegrationFits, AcceptanceFits, GrantFits;
  }

  /** The guards of an event are those of the request, followed in the three gated kinds by that of the approval. */
  lemma GuardsSay(t: Task, c: Entry)
    requires Legit(t, c)
    ensures c.grant.Some? <==> c.event.kind.Dispatching? || c.event.kind.Acceptation? || c.event.kind.Integrating?
    ensures c.grant.None? ==> c.event.guards == c.r.guards
    ensures c.grant.Some? ==>
      c.event.guards == c.r.guards + [ApprovalGuard(
        if c.event.kind.Dispatching? then DispatchScope else if c.event.kind.Acceptation? then AcceptScope else IntegrateScope,
        c.grant.value.approvalId, FloorSecond(c.env.now), c.grant.value.eventId)]
  {
    hide IntegrationFits, AcceptanceFits, After;
    assert c.r.guards + [] == c.r.guards;
  }

  /** A dispatch, and nothing else, sends a message; it says everything the dispatched role needs. */
  lemma MessageSays(t: Task, c: Entry)
    requires Legit(t, c)
    ensures c.outbox.Some? <==> c.event.kind.Dispatching?
    ensures c.outbox.Some? ==> c.Payload().TaskDispatched? && SendsOut(c.Payload().args, t, c)
  {
    hide IntegrationFits, AcceptanceFits, After;
  }

  predicate SendsOut(a: DispatchArgs, t: Task, c: Entry) {
    c.outbox == Some(Outbox(
      a.message, c.r.eventId, DedupeKey(c.r.cas.taskId, t.revision, a.newAttempt, a.dispatchId), a.role,
      FloorSecond(c.env.now), a.model, a.cardPath, a.cardCommit, a.baseCommit, a.branch, a.reportPath))
  }

  // ---- Runs ---------------------------------------------------------------------------------------------------------

  /** A task that needs to be specified or resumed before it can be dispatched. */
  predicate Unready(t: Task) {
    t.dispatch.None? && !t.state.Ready? && !t.state.Returned? && !t.state.Accepted? && !t.state.Integrated?
  }

  /** A commit that makes it ready: a specification, or a resolution into a state from which it can become ready. */
  predicate Readies(c: Entry) {
    c.event.kind.Specification? || (c.event.kind.Resolution? && (c.event.toState.Ready? || c.event.toState.Returned?))
  }

  lemma StaysUnready(t: Task, c: Entry)
    requires Legit(t, c) && Unready(t) && !Readies(c)
    ensures Unready(c.after) && !c.event.kind.Dispatching?
  {
    hide IntegrationFits, AcceptanceFits, GrantFits;
  }

  /** Between a rescope and any later dispatch of the task there is a commit that makes it ready again. */
  lemma RescopeIsReadied(start: Tasks, log: seq<Entry>, i: nat, j: nat) returns (k: nat)
    requires LegitLog(start, log) && i < j < |log| && log[i].Task() == log[j].Task()
    requires log[i].event.kind.Rescoping? && log[j].event.kind.Dispatching?
    ensures i < k < j && log[k].Task() == log[j].Task() && Readies(log[k])
  {
    hide Legit, Readies, Unready, LegitLog;
    var id := log[j].Task();
    if k' :| i < k' < j && log[k'].Task() == id && Readies(log[k']) {
      k := k';
    } else {
      PrefixLegit(start, log, j);
      LedgerKeys(start, log[..j]);
      UnreadySince(start, log[..j], i);
      DispatchIsReady(LedgerAfter(start, log[..j])[id], log[j]);
      assert false;
    }
  }

  /** From a rescope on, the task is unready as long as nothing readies it. */
  lemma {:induction false} UnreadySince(start: Tasks, log: seq<Entry>, i: nat)
    requires LegitLog(start, log) && i < |log| && log[i].event.kind.Rescoping?
    requires forall k :: i < k < |log| && log[k].Task() == log[i].Task() ==> !Readies(log[k])
    ensures log[i].Task() in LedgerAfter(start, log) && Unready(LedgerAfter(start, log)[log[i].Task()])
    decreases |log|
  {
    hide Legit, Readies, Unready;
    var n, id := |log| - 1, log[i].Task();
    if i < n {
      UnreadySince(start, log[..n], i);
      if log[n].Task() == id { StaysUnready(LedgerAfter(start, log[..n])[id], log[n]); }
    } else {
      RescopedIsUnready(LedgerAfter(start, log[..n])[id], log[n]);
    }
  }

  lemma RescopedIsUnready(t: Task, c: Entry)
    requires Legit(t, c) && c.event.kind.Rescoping?
    ensures Unready(c.after)
  {
    CommitSets(t, c);
    hide Legit;
  }

  lemma DispatchIsReady(t: Task, c: Entry)
    requires Legit(t, c) && c.event.kind.Dispatching?
    ensures !Unready(t)
  {
    hide IntegrationFits, AcceptanceFits, GrantFits;
  }
}
