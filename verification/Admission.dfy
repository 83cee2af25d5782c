/** Exactly which calls commit, what they are answered, and what a commit leaves behind in a run. */
module Admission {
  import opened Wrappers
  import opened Approvals
  import opened ApprovalRuns
  import opened GateFacts
  import opened Ledger
  import opened Events
  import opened AcceptanceFiles
  import opened Transition
  import opened History
  import opened ControlPlaneRuns
  import opened ControlPlaneSafety
  import opened ControlPlaneTheorems
  import opened StateGraph
  import Replay

  // ---- The condition ----------------------------------------------------------------------------------------------

  /** What the caller says of the repository and of the task is so, and the payload leads on from the task's state. */
  predicate Current(t: Task, r: Request, env: Env) {
    && r.cas.snapshot == env.git.head && r.cas.revision == t.revision && r.cas.state == t.state
    && exists to :: Leads(r.payload, t.state, to)
  }

  /** The five transitions of a running dispatch name it and its attempt. */
  predicate Bound(t: Task, r: Request) {
    r.payload.DispatchAcknowledged? || r.payload.DeliverySubmission? || r.payload.DeliveryAcceptance?
    || r.payload.DeliveryReturn? || r.payload.DispatchFailed? ==>
      && t.dispatch.Some? && t.attempt.Some?
      && r.dispatchCas == Some(DispatchCas(t.dispatch.value.id, t.attempt.value))
  }

  /** A dispatch is the next attempt of a task that has none running, under a new message. */
  predicate NextDispatch(w: World, t: Task, p: Payload) {
    p.TaskDispatched? ==>
      && t.dispatch.None? && p.args.message !in w.outbox
      && p.args.newAttempt == (if t.attempt.Some? then t.attempt.value else 0) + 1
  }

  /** The record of an acceptance. */
  function Recorded(t: Task, r: Request, env: Env): Acceptance
    requires r.payload.DeliveryAcceptance? && r.payload.path.Some? && t.dispatch.Some? && t.attempt.Some?
    requires t.card.Some? && t.card.value in env.cards
  {
    var card := env.cards[t.card.value];
    Acceptance(r.cas.taskId, t.revision, t.dispatch.value.id, t.attempt.value, r.payload.path.value.review, card.cardType,
               card.role, env.holder, env.leaseEpoch, card.baseCommit, t.implementation, t.report, r.payload.commit,
               r.evidenceRefs, r.payload.review, FloorSecond(env.now))
  }

  /** An acceptance is of the delivered commit, if there is one; its record is new, has the name that goes with the task,
      its revision and its attempt, rests on a readable task card, and reads back in order. */
  predicate NewRecord(w: World, t: Task, r: Request, env: Env) {
    r.payload.DeliveryAcceptance? ==>
      && t.dispatch.Some? && t.attempt.Some? && t.attempt.value >= 1 && t.card.Some? && t.card.value in env.cards
      && r.payload.path.Some? && r.payload.path.value !in w.acceptances && r.payload.path.value.review >= 1
      && r.payload.path.value == AcceptancePath(r.cas.taskId, t.revision, t.attempt.value, r.payload.path.value.review)
      && (t.implementation.Some? ==> t.implementation == Some(r.payload.commit))
      && Proofread(Recorded(t, r, env), r.cas.taskId).Success?
  }

  /** What the approval of a dispatch or an acceptance must be for. */
  function Asked(t: Task, r: Request): Option<(Scope, Subject)> {
    if r.payload.TaskDispatched? then
      Some((DispatchScope, Subject(r.cas.taskId, t.revision, r.payload.args.newAttempt, r.payload.args.dispatchId, None)))
    else if r.payload.DeliveryAcceptance? && t.attempt.Some? && t.dispatch.Some? then
      Some((AcceptScope, Subject(r.cas.taskId, t.revision, t.attempt.value, t.dispatch.value.id, None)))
    else None
  }

  /** The three gated transitions have a live approval; that of an integration is for what the acceptance record reads. */
  ghost predicate Approved(w: World, t: Task, r: Request, env: Env)
    requires Constructible(r)
  {
    && (Asked(t, r).Some? ==>
          Require(w.approvals, env.git, CheckRequest(Asked(t, r).value.0, Asked(t, r).value.1, env.git.head), env.now).Success?)
    && (r.payload.ChangeIntegrated? ==>
          && SubjectOf(w, t, r).Success?
          && Require(w.approvals, env.git, CheckRequest(IntegrateScope, SubjectOf(w, t, r).value, env.git.head), env.now).Success?)
  }

  /** All that a call has to meet. */
  ghost predicate Admissible(w: World, r: Request, env: Env)
    requires Constructible(r)
  {
    && r.cas.taskId in w.ledger && r.eventId !in w.events
    && (forall g :: g in r.guards ==> !g.ApprovalGuard?)
    && var t := w.ledger[r.cas.taskId];
       Current(t, r, env) && Bound(t, r) && NextDispatch(w, t, r.payload)
       && (r.payload.BlockerRescoped? ==> r.payload.newRevision == t.revision + 1)
       && NewRecord(w, t, r, env) && Approved(w, t, r, env)
  }

  // ---- It is exactly this -----------------------------------------------------------------------------------------

  lemma LeadsExactly(p: Payload, s: State)
    requires p.BlockerResolved? ==> IsResumable(p.resumeTo)
    ensures (exists to :: Leads(p, s, to)) <==> MayLeave(p, s) && s != TargetOf(p)
  {
    if MayLeave(p, s) && s != TargetOf(p) {
      assert IsFor(KindOf(p), p) && Edge(KindOf(p), s, TargetOf(p));
      assert Leads(p, s, TargetOf(p));
    }
  }

  predicate Fenced(w: World, t: Task, r: Request, env: Env) {
    && CasHolds(t, r, env) && t.state != TargetOf(r.payload)
    && (r.payload.TaskDispatched? ==> r.payload.args.newAttempt == t.Attempt() + 1 && r.payload.args.message !in w.outbox)
  }

  lemma CurrentExactly(w: World, t: Task, r: Request, env: Env)
    requires Constructible(r)
    ensures Fenced(w, t, r, env) <==>
      && Current(t, r, env) && Bound(t, r) && NextDispatch(w, t, r.payload)
      && (r.payload.BlockerRescoped? ==> r.payload.newRevision == t.revision + 1)
  {
    LeadsExactly(r.payload, t.state);
    hide Leads, MayLeave, TargetOf;
  }

  predicate Recordable(w: World, t: Task, r: Request, env: Env)
    requires Constructible(r)
  {
    && PathFits(t, r) && (r.payload.DeliveryAcceptance? ==> r.payload.path.value !in w.acceptances)
    && FreshAcceptance(t, r, env).Success?
  }

  lemma RecordExactly(w: World, t: Task, r: Request, env: Env)
    requires Constructible(r) && CasHolds(t, r, env)
    ensures Recordable(w, t, r, env) <==> NewRecord(w, t, r, env)
    ensures NewRecord(w, t, r, env) ==>
      FreshAcceptance(t, r, env) == Success(if r.payload.DeliveryAcceptance? then Some(Recorded(t, r, env)) else None)
  {
    hide Proofread, MayLeave;
  }

  lemma ApprovedExactly(w: World, t: Task, r: Request, env: Env)
    requires Constructible(r) && CasHolds(t, r, env) && NewRecord(w, t, r, env)
    ensures GrantFor(w, t, r, env).Success? <==> Approved(w, t, r, env)
  {
    hide Require, Proofread, ReadRecord, IntegrationSubject, MayLeave;
  }

  lemma OrphansExactly(w: World, t: Task, r: Request)
    requires PathFits(t, r)
    ensures Orphans(w, t, r) <==>
      || t.state == TargetOf(r.payload) || (r.payload.TaskDispatched? && r.payload.args.message in w.outbox)
      || (r.payload.DeliveryAcceptance? && r.payload.path.value in w.acceptances)
  {
    hide TargetOf;
  }

  /** A call gets to its writes exactly if it is admissible. */
  lemma CommitsExactly(w: World, r: Request, env: Env)
    requires Constructible(r)
    ensures Prepare(w, r, env).Write? <==> Admissible(w, r, env)
  {
    hide Prepare, Current, Bound, NextDispatch, NewRecord, Approved, CasHolds, FreshAcceptance, GrantFor, PathFits, PlanFresh, Orphans, TargetOf,
      Constructible;
    if Prepare(w, r, env).Write? {
      WriteIsFresh(w, r, env);
      var t := w.ledger[r.cas.taskId];
      FreshMeans(w, t, r, env);
      OrphansExactly(w, t, r);
      CurrentExactly(w, t, r, env);
      RecordExactly(w, t, r, env);
      ApprovedExactly(w, t, r, env);
    }
    if Admissible(w, r, env) {
      AdmissibleWrites(w, r, env);
    }
  }

  lemma AdmissibleWrites(w: World, r: Request, env: Env)
    requires Constructible(r) && Admissible(w, r, env)
    ensures Prepare(w, r, env).Write?
  {
    hide Prepare, Current, Bound, NextDispatch, NewRecord, Approved, CasHolds, FreshAcceptance, GrantFor, PathFits, PlanFresh, Orphans, TargetOf,
      Constructible, EventOf, OutboxOf, After;
    var t := w.ledger[r.cas.taskId];
    CurrentExactly(w, t, r, env);
    RecordExactly(w, t, r, env);
    ApprovedExactly(w, t, r, env);
    OrphansExactly(w, t, r);
    Replay.PassedChecks(w, t, r, env, FreshAcceptance(t, r, env).value, GrantFor(w, t, r, env).value);
    FreshIsPlanned(w, t, r, env);
  }

  lemma FreshIsPlanned(w: World, t: Task, r: Request, env: Env)
    requires Constructible(r) && r.cas.taskId in w.ledger && w.ledger[r.cas.taskId] == t && PathFits(t, r)
    requires r.eventId !in w.events && forall g :: g in r.guards ==> !g.ApprovalGuard?
    ensures Prepare(w, r, env) == PlanFresh(w, t, r, env)
  {
    hide PlanReplay, PlanFresh, PathFits, Constructible;
  }

  /** What a complete commit is answered, and what its acceptance record says. */
  lemma CommitAnswers(w: World, r: Request, env: Env)
    requires Constructible(r) && Admissible(w, r, env)
    ensures var (w', answer) := Execute(w, r, env, 6);
      && r.cas.taskId in w'.ledger
      && answer == Success(Outcome(
           r.cas.taskId, r.eventId, w.ledger[r.cas.taskId].state, w'.ledger[r.cas.taskId].state, FloorSecond(env.now),
           if r.payload.TaskDispatched? then Some(r.payload.args.message) else None))
      && (r.payload.DeliveryAcceptance? ==>
            && r.payload.path.value in w'.acceptances
            && w'.acceptances[r.payload.path.value] == Recorded(w.ledger[r.cas.taskId], r, env))
  {
    hide Prepare, Current, Bound, NextDispatch, NewRecord, Approved, FreshAcceptance, GrantFor, PathFits, PlanFresh, Orphans, TargetOf,
      Constructible, EventOf, OutboxOf, CasHolds;
    var t := w.ledger[r.cas.taskId];
    CommitsExactly(w, r, env);
    WriteIsFresh(w, r, env);
    FreshMeans(w, t, r, env);
    CurrentExactly(w, t, r, env);
    RecordExactly(w, t, r, env);
    CurrentState(t, r, env);
    var plan := Prepare(w, r, env);
    OneCompanion(w, t, r, env);
    assert |Writes(r, plan)| <= 6 && Writes(r, plan)[..|Writes(r, plan)|] == Writes(r, plan);
    WritesLand(w, r, plan, |Writes(r, plan)|);
    NewRecordHas(w, t, r, env);
  }

  lemma OneCompanion(w: World, t: Task, r: Request, env: Env)
    ensures OutboxOf(r, env).Some? ==> PathOf(r.payload).None?
  {
  }

  lemma NewRecordHas(w: World, t: Task, r: Request, env: Env)
    requires NewRecord(w, t, r, env)
    ensures r.payload.DeliveryAcceptance? ==>
      t.dispatch.Some? && t.attempt.Some? && t.card.Some? && t.card.value in env.cards && r.payload.path.Some?
  {
    hide Proofread;
  }

  lemma CurrentState(t: Task, r: Request, env: Env)
    requires Current(t, r, env)
    ensures r.cas.state == t.state && r.cas.revision == t.revision
  {
    hide Leads;
  }

  // ---- Refusals -----------------------------------------------------------------------------------------------------

  /** An acceptance names a record of the task, its expected revision and its attempt. */
  predicate NamesItsRecord(t: Task, r: Request) {
    r.payload.DeliveryAcceptance? ==>
      && r.payload.path.Some? && r.payload.path.value.review >= 1
      && r.payload.path.value.attempt == (if t.attempt.Some? then t.attempt.value else 0) >= 1
      && r.payload.path.value.taskId == r.cas.taskId && r.payload.path.value.revision == r.cas.revision
  }

  /** Something of the transition is there without its event. */
  predicate HalfDone(w: World, t: Task, r: Request) {
    || (r.payload.TaskDispatched? && r.payload.args.message in w.outbox)
    || (r.payload.DeliveryAcceptance? && r.payload.path.Some? && r.payload.path.value in w.acceptances)
    || exists from :: Leads(r.payload, from, t.state)
  }

  lemma HalfDoneExactly(w: World, t: Task, r: Request)
    requires Constructible(r)
    ensures HalfDone(w, t, r) <==> Orphans(w, t, r)
  {
    if t.state == TargetOf(r.payload) {
      var from := StartOf(r.payload);
      assert IsFor(KindOf(r.payload), r.payload) && Edge(KindOf(r.payload), from, t.state);
      assert Leads(r.payload, from, t.state);
    }
  }

  function StartOf(p: Payload): State {
    match p
    case TaskDispatched(_) => Ready
    case DispatchAcknowledged => State.Dispatched
    case DeliverySubmission(_, _) => InProgress
    case DeliveryAcceptance(_, _, _) => ReviewReady
    case DeliveryReturn => ReviewReady
    case TaskRequeued => Returned
    case ChangeIntegrated(_, _, _) => Accepted
    case IntegrationFailed(_) => Accepted
    case BlockerResolved(_) => Blocked
    case BlockerRescoped(_) => Blocked
    case BlockerCancelled => Blocked
    case DispatchFailed(_) => InProgress
    case _ => Draft
  }

  /** Which error a call with a new event id is refused with, in the order of the checks. */
  lemma Refusals(w: World, r: Request, env: Env)
    requires Constructible(r)
    ensures r.cas.taskId !in w.ledger ==> Prepare(w, r, env) == Refuse(CasConflict)
    ensures r.cas.taskId in w.ledger && r.eventId !in w.events ==> RefusedFor(w, w.ledger[r.cas.taskId], r, env)
  {
    hide Proofread, Require, ReadRecord, IntegrationSubject, CasHolds, Orphans, EventOf, After, OutboxOf, TargetOf, PathFits, Current, Bound,
      NextDispatch;
    if r.cas.taskId in w.ledger && r.eventId !in w.events {
      var t := w.ledger[r.cas.taskId];
      PathExactly(t, r);
      HalfDoneExactly(w, t, r);
      hide HalfDone, NamesItsRecord, PlanReplay, Constructible;
      Replay.NoApprovalGuard(r);
      if !Orphans(w, t, r) { StaleExactly(w, t, r, env); }
      if Current(t, r, env) { CurrentState(t, r, env); }
    }
  }

  lemma PathExactly(t: Task, r: Request)
    ensures NamesItsRecord(t, r) <==> PathFits(t, r)
  {
  }

  lemma StaleExactly(w: World, t: Task, r: Request, env: Env)
    requires Constructible(r) && !Orphans(w, t, r)
    ensures r.payload.TaskDispatched? ==> (HasNextAttempt(t, r.payload) <==> r.payload.args.newAttempt == t.Attempt() + 1)
    ensures HasNextAttempt(t, r.payload) ==>
      (CasHolds(t, r, env) <==>
         && Current(t, r, env) && Bound(t, r) && NextDispatch(w, t, r.payload)
         && (r.payload.BlockerRescoped? ==> r.payload.newRevision == t.revision + 1))
  {
    CurrentExactly(w, t, r, env);
    hide CasHolds, Current, Bound, TargetOf;
  }

  predicate HasNextAttempt(t: Task, p: Payload) {
    p.TaskDispatched? ==> p.args.newAttempt == (if t.attempt.Some? then t.attempt.value else 0) + 1
  }

  /** A record name that is not the task's, or an approval guard of the caller's own, is invalid; half-done evidence is a
      duplicate; a stale belief or attempt is a conflict; a missing card or another commit than the delivered one is a schema
      error; and a missing approval is refused with the error of the gate. */
  ghost predicate RefusedFor(w: World, t: Task, r: Request, env: Env)
    requires Constructible(r) && r.cas.taskId in w.ledger && w.ledger[r.cas.taskId] == t
  {
    var plan := Prepare(w, r, env);
    var current := Current(t, r, env) && Bound(t, r) && NextDispatch(w, t, r.payload)
                   && (r.payload.BlockerRescoped? ==> r.payload.newRevision == t.revision + 1);
    if !NamesItsRecord(t, r) || exists g :: g in r.guards && g.ApprovalGuard? then plan == Refuse(Invalid)
    else if HalfDone(w, t, r) then plan == Refuse(DuplicateEvidence)
    else if !HasNextAttempt(t, r.payload) then plan == Refuse(CasConflict)
    else if r.payload.DeliveryAcceptance? && (t.card.None? || t.card.value !in env.cards) then plan == Refuse(SchemaError)
    else if r.payload.DeliveryAcceptance? && t.implementation.Some? && t.implementation != Some(r.payload.commit)
    then plan == Refuse(SchemaError)
    else if !r.payload.DeliveryAcceptance? && !current then plan == Refuse(CasConflict)
    else if r.payload.TaskDispatched? then
      var subject := Subject(r.cas.taskId, t.revision, r.payload.args.newAttempt, r.payload.args.dispatchId, None);
      var required := Require(w.approvals, env.git, CheckRequest(DispatchScope, subject, env.git.head), env.now);
      required.Failure? ==> plan == Refuse(ApprovalRefused(required.error))
    else true
  }

  // ---- Runs ---------------------------------------------------------------------------------------------------------

  /** Every commit of a run, interrupted or not, follows an edge of the graph from where the commits before it left the
      task, sets exactly the fields of its kind, and reports so. */
  lemma CommitsOfRuns(tasks: Tasks, steps: seq<Step>, i: nat)
    requires AllPossible(steps) && i < |Reached(tasks, steps).log|
    ensures var log := Reached(tasks, steps).log;
      && log[i].Task() in LedgerAfter(tasks, log[..i])
      && Committed(LedgerAfter(tasks, log[..i])[log[i].Task()], log[i])
  {
    hide Reached, Legit, Durable, GrantAlive, Sound, LegitLog, LedgerAfter, Edge, IsFor, Sets, Reports;
    var log := Reached(tasks, steps).log;
    ReachedLog(tasks, steps);
    PrefixLegit(tasks, log, i);
    var t := LedgerAfter(tasks, log[..i])[log[i].Task()];
    StartsFrom(t, log[i]);
    CommitFollowsEdge(t, log[i]);
    CommitSets(t, log[i]);
    EventReports(t, log[i]);
  }

  lemma StartsFrom(t: Task, c: Entry)
    requires Legit(t, c)
    ensures c.before == t
  {
    hide CasHolds, EventOf, After, GrantFits, AcceptanceFits;
  }

  predicate Committed(t: Task, c: Entry) {
    && c.before == t && IsFor(c.event.kind, c.Payload()) && Edge(c.event.kind, t.state, c.after.state)
    && Sets(c.event.kind, c.Payload(), t, c.after, FloorSecond(c.env.now))
    && Reports(c.event.kind, c.Payload(), t, c.event, c)
  }

  /** In every run, a rescoped task is specified again, or resumed where it can become ready, before it is dispatched. */
  lemma RescopeOfRuns(tasks: Tasks, steps: seq<Step>, i: nat, j: nat) returns (k: nat)
    requires AllPossible(steps) && i < j < |Reached(tasks, steps).log|
    requires var log := Reached(tasks, steps).log;
      log[i].Task() == log[j].Task() && log[i].event.kind.Rescoping? && log[j].event.kind.Dispatching?
    ensures var log := Reached(tasks, steps).log;
      i < k < j && log[k].Task() == log[j].Task() && Readies(log[k])
  {
    hide Reached, Legit, Durable, GrantAlive, Sound, LegitLog, LedgerAfter, Readies;
    ReachedLog(tasks, steps);
    k := RescopeIsReadied(tasks, Reached(tasks, steps).log, i, j);
  }

  /** Every gated commit of a run rested on a store of approvals all of whose records, grants and revocations, were of the
      HEAD it saw or of an ancestor; these records are still there. */
  lemma GatedOnHistory(tasks: Tasks, steps: seq<Step>, i: nat, e: EventId)
    requires AllPossible(steps) && i < |Reached(tasks, steps).log| && Reached(tasks, steps).log[i].grant.Some?
    requires e in Reached(tasks, steps).log[i].approvals
    ensures var s := Reached(tasks, steps);
      && InHistory(s.log[i].approvals[e], s.log[i].env.git)
      && e in s.world.approvals && s.world.approvals[e] == s.log[i].approvals[e]
  {
    hide Reached, Legit, Sound, LegitLog, LedgerAfter, InHistory;
    ReachedLog(tasks, steps);
  }
}
