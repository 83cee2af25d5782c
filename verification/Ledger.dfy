/** The records of the control plane and the effect of each of the sixteen transitions on a ledger task
    (`control_plane_transition.py`). */
module Ledger {
  import opened Wrappers
  import opened Approvals

  type MessageId(==, !new)
  datatype Text = Text(text: string)

  datatype State =
    | Draft | Ready | Dispatched | InProgress | ReviewReady | Returned
    | Accepted | Integrated | Blocked | Cancelled | Superseded

  predicate IsTerminal(s: State) { s.Integrated? || s.Cancelled? || s.Superseded? }

  predicate IsResumable(s: State) {
    s.Ready? || s.Draft? || s.Dispatched? || s.InProgress? || s.ReviewReady? || s.Returned?
  }

  // ---- The task --------------------------------------------------------------------------------------------------

  datatype Stamp =
    | UpdatedAt | ReadyAt | DispatchedAt | StartedAt | DeliveredAt
    | AcceptedAt | IntegratedAt | BlockedAt | CancelledAt | SupersededAt

  datatype Dispatch = Dispatch(
    id: DispatchId, attempt: int, role: Text, baseCommit: Commit, branch: Text, dispatchedAt: Instant, model: Text)

  datatype Blocker = Blocker(
    reason: Text, kind: Text, owner: Text, unblockCondition: Text, resumeState: State, attemptValid: Option<bool>)

  datatype Delivery = DeliverySubmitted | DeliveryAccepted | DeliveryRejected

  /** `docs/pm/acceptances/{task}-r{revision}-a{attempt}-review{number}.md` */
  datatype AcceptancePath = AcceptancePath(taskId: TaskId, revision: int, attempt: int, review: int)

  datatype Card = Card(path: Text, commit: Commit)

  datatype Task = Task(
    revision: int, state: State, attempt: Option<int>, dispatch: Option<Dispatch>, reportPath: Option<Text>,
    delivery: Option<Delivery>, implementation: Option<Commit>, report: Option<Commit>,
    acceptedCommit: Option<Commit>, acceptancePath: Option<AcceptancePath>, integratedCommit: Option<Commit>,
    blocker: Option<Blocker>, reviewAfter: Option<Text>, supersededBy: Option<Text>, card: Option<Card>,
    stamps: map<Stamp, Instant>)
  {
    /** The ledger attempt, 0 before the first dispatch. */
    function Attempt(): int { if attempt.Some? then attempt.value else 0 }

    function DispatchId(): Option<DispatchId> { if dispatch.Some? then Some(dispatch.value.id) else None }
  }

  // ---- The request -----------------------------------------------------------------------------------------------

  datatype DispatchArgs = DispatchArgs(
    dispatchId: DispatchId, role: Text, model: Text, cardPath: Text, cardCommit: Commit, baseCommit: Commit,
    branch: Text, reportPath: Text, message: MessageId, newAttempt: int)

  datatype Acceptance = Acceptance(
    taskId: TaskId, revision: int, reviewedDispatch: DispatchId, attempt: int, review: int, cardType: Text,
    role: Text, reviewer: Text, leaseEpoch: int, baseCommit: Commit, implementation: Option<Commit>,
    report: Option<Commit>, acceptedCommit: Commit, evidenceRefs: seq<Text>, notes: ReviewArgs, createdAt: Instant)

  datatype ReviewArgs = ReviewArgs(residualRisks: seq<Text>, criteriaEvidence: seq<Text>, rationale: Text)

  /** One constructor for each event type. */
  datatype Payload =
    | TaskSpecified
    | TaskDispatched(args: DispatchArgs)
    | DispatchAcknowledged
    | DeliverySubmission(implementation: Commit, report: Commit)
    | DeliveryAcceptance(commit: Commit, path: Option<AcceptancePath>, review: ReviewArgs)
    | DeliveryReturn
    | TaskRequeued
    | ChangeIntegrated(integrated: Commit, equivalenceMethod: Option<Text>, equivalenceEvidence: Option<Text>)
    | TaskBlocked(blocker: Blocker)
    | IntegrationFailed(blocker: Blocker)
    | BlockerResolved(resumeTo: State)
    | BlockerRescoped(newRevision: int)
    | BlockerCancelled
    | TaskCancelled
    | TaskSuperseded(successor: Text)
    | DispatchFailed(failure: Text)

  datatype Cas = Cas(taskId: TaskId, revision: int, state: State, snapshot: Commit)

  datatype DispatchCas = DispatchCas(dispatchId: DispatchId, attempt: int)

  datatype GuardValue = NullValue | FlagValue(flag: bool) | NumberValue(number: int) | TextValue(text: string)

  datatype GuardInput = GuardInput(key: string, value: GuardValue)

  /** The guard named `approval_gate`, and the guards of a caller, which have other names. */
  datatype Guard =
    | ApprovalGuard(scope: Scope, approvalId: ApprovalId, checkedAt: Instant, evidence: EventId)
    | OtherGuard(name: string, inputs: seq<GuardInput>, result: string, checked: string, reference: string)

  datatype Request = Request(
    cas: Cas, dispatchCas: Option<DispatchCas>, eventId: EventId, payload: Payload,
    source: Option<Text>, evidenceRefs: seq<Text>, guards: seq<Guard>)

  predicate NeedsDispatchCas(p: Payload) {
    p.DispatchAcknowledged? || p.DeliverySubmission? || p.DeliveryAcceptance? || p.DeliveryReturn? || p.DispatchFailed?
  }

  /** What the constructors of the request classes enforce; every other request cannot be built. */
  predicate Constructible(r: Request) {
    && r.cas.revision >= 1
    && (NeedsDispatchCas(r.payload) ==> r.dispatchCas.Some?)
    && (!NeedsDispatchCas(r.payload) && !r.payload.TaskDispatched? ==> r.dispatchCas.None?)
    && (r.dispatchCas.Some? ==> r.dispatchCas.value.attempt >= 0)
    && (r.payload.TaskDispatched? ==> r.payload.args.newAttempt >= 1)
    && (r.payload.BlockerResolved? ==> IsResumable(r.payload.resumeTo))
    && (r.payload.DispatchFailed? ==> (r.cas.state.Dispatched? || r.cas.state.InProgress?) && r.evidenceRefs != [])
  }

  // ---- The transition table --------------------------------------------------------------------------------------

  function TargetOf(p: Payload): State {
    match p
    case TaskSpecified => Ready
    case TaskDispatched(_) => Dispatched
    case DispatchAcknowledged => InProgress
    case DeliverySubmission(_, _) => ReviewReady
    case DeliveryAcceptance(_, _, _) => Accepted
    case DeliveryReturn => Returned
    case TaskRequeued => Ready
    case ChangeIntegrated(_, _, _) => Integrated
    case TaskBlocked(_) => Blocked
    case IntegrationFailed(_) => Blocked
    case BlockerResolved(to) => to
    case BlockerRescoped(_) => Draft
    case BlockerCancelled => Cancelled
    case TaskCancelled => Cancelled
    case TaskSuperseded(_) => Superseded
    case DispatchFailed(_) => Ready
  }

  /** The states a transition may leave; blocking, cancelling and superseding leave any state that is not terminal. */
  predicate MayLeave(p: Payload, s: State) {
    match p
    case TaskSpecified => s.Draft?
    case TaskDispatched(_) => s.Ready?
    case DispatchAcknowledged => s.Dispatched?
    case DeliverySubmission(_, _) => s.InProgress?
    case DeliveryAcceptance(_, _, _) => s.ReviewReady?
    case DeliveryReturn => s.ReviewReady?
    case TaskRequeued => s.Returned?
    case ChangeIntegrated(_, _, _) => s.Accepted?
    case IntegrationFailed(_) => s.Accepted?
    case BlockerResolved(_) => s.Blocked?
    case BlockerRescoped(_) => s.Blocked?
    case BlockerCancelled => s.Blocked?
    case DispatchFailed(_) => s.Dispatched? || s.InProgress?
    case _ => !IsTerminal(s)
  }

  predicate IsGated(p: Payload) { p.TaskDispatched? || p.DeliveryAcceptance? || p.ChangeIntegrated? }

  function ScopeOf(p: Payload): Scope {
    if p.TaskDispatched? then DispatchScope else if p.DeliveryAcceptance? then AcceptScope else IntegrateScope
  }

  // ---- The effect on the task, field by field --------------------------------------------------------------------

  predicate IsBlocking(p: Payload) { p.TaskBlocked? || p.IntegrationFailed? }

  predicate IsUnblocking(p: Payload) { p.BlockerResolved? || p.BlockerRescoped? || p.BlockerCancelled? }

  /** The transitions after which the task holds no dispatch. */
  predicate ClearsDispatch(p: Payload) {
    || p.DeliveryAcceptance? || p.DeliveryReturn? || p.TaskRequeued? || p.DispatchFailed? || p.BlockerRescoped?
    || p.BlockerCancelled? || p.TaskCancelled? || p.TaskSuperseded?
    || (IsBlocking(p) && p.blocker.attemptValid != Some(true))
  }

  function DispatchAfter(t: Task, p: Payload, now: Instant): Option<Dispatch> {
    if p.TaskDispatched? then
      Some(Dispatch(p.args.dispatchId, p.args.newAttempt, p.args.role, p.args.baseCommit, p.args.branch, now, p.args.model))
    else if ClearsDispatch(p) then None
    else t.dispatch
  }

  function DeliveryAfter(t: Task, p: Payload): Option<Delivery> {
    if p.DeliverySubmission? then Some(DeliverySubmitted)
    else if p.DeliveryAcceptance? then Some(DeliveryAccepted)
    else if p.DeliveryReturn? then Some(DeliveryRejected)
    else if p.DispatchFailed? || p.BlockerRescoped? then None
    else t.delivery
  }

  /** The second stamp a transition sets, besides `updated_at`. */
  function StampOf(p: Payload): Option<Stamp> {
    match p
    case TaskSpecified => Some(ReadyAt)
    case TaskDispatched(_) => Some(DispatchedAt)
    case DispatchAcknowledged => Some(StartedAt)
    case DeliverySubmission(_, _) => Some(DeliveredAt)
    case DeliveryAcceptance(_, _, _) => Some(AcceptedAt)
    case ChangeIntegrated(_, _, _) => Some(IntegratedAt)
    case TaskBlocked(_) => Some(BlockedAt)
    case IntegrationFailed(_) => Some(BlockedAt)
    case BlockerCancelled => Some(CancelledAt)
    case TaskCancelled => Some(CancelledAt)
    case TaskSuperseded(_) => Some(SupersededAt)
    case _ => None
  }

  function StampsAfter(t: Task, p: Payload, now: Instant): map<Stamp, Instant> {
    var updated := t.stamps[UpdatedAt := now];
    if StampOf(p).Some? then updated[StampOf(p).value := now] else updated
  }

  /** The task after a transition at the (already truncated) time `now`. */
  function After(t: Task, p: Payload, now: Instant): Task {
    var undelivered := p.DispatchFailed? || p.BlockerRescoped?;
    t.(
      state := TargetOf(p),
      stamps := StampsAfter(t, p, now),
      revision := if p.BlockerRescoped? then p.newRevision else t.revision,
      attempt := if p.TaskDispatched? then Some(p.args.newAttempt) else t.attempt,
      dispatch := DispatchAfter(t, p, now),
      reportPath := if p.TaskDispatched? then Some(p.args.reportPath) else if undelivered then None else t.reportPath,
      delivery := DeliveryAfter(t, p),
      implementation :=
        if p.DeliverySubmission? then Some(p.implementation) else if undelivered then None else t.implementation,
      report := if p.DeliverySubmission? then Some(p.report) else if undelivered then None else t.report,
      acceptedCommit :=
        if p.DeliveryAcceptance? then Some(p.commit) else if p.BlockerRescoped? then None else t.acceptedCommit,
      acceptancePath :=
        if p.DeliveryAcceptance? then p.path else if p.BlockerRescoped? then None else t.acceptancePath,
      integratedCommit := if p.ChangeIntegrated? then Some(p.integrated) else t.integratedCommit,
      blocker := if IsBlocking(p) then Some(p.blocker) else if IsUnblocking(p) then None else t.blocker,
      reviewAfter := if IsUnblocking(p) then None else t.reviewAfter,
      supersededBy := if p.TaskSuperseded? then Some(p.successor) else t.supersededBy
    )
  }

  /** `_mutate_task_for_transition`: the assignments of the source on its copy of the task, branch by branch. */
  method Mutate(task: Task, p: Payload, now: Instant) returns (r: Option<Task>)
    ensures r == if p.TaskDispatched? && p.args.newAttempt != task.Attempt() + 1 then None else Some(After(task, p, now))
  {
    var t := task.(state := TargetOf(p), stamps := task.stamps[UpdatedAt := now]);
    match p {
      case TaskSpecified =>
        t := t.(stamps := t.stamps[ReadyAt := now]);
      case TaskDispatched(args) =>
        if args.newAttempt != task.Attempt() + 1 {
          return None;
        }
        t := t.(attempt := Some(args.newAttempt));
        t := t.(dispatch := Some(Dispatch(args.dispatchId, args.newAttempt, args.role, args.baseCommit, args.branch,
                                          now, args.model)));
        t := t.(reportPath := Some(args.reportPath), stamps := t.stamps[DispatchedAt := now]);
      case DispatchAcknowledged =>
        t := t.(stamps := t.stamps[StartedAt := now]);
      case DeliverySubmission(implementation, report) =>
        t := t.(implementation := Some(implementation), report := Some(report));
        t := t.(delivery := Some(DeliverySubmitted), stamps := t.stamps[DeliveredAt := now]);
      case DeliveryAcceptance(commit, path, _) =>
        t := t.(acceptedCommit := Some(commit), acceptancePath := path);
        t := t.(delivery := Some(DeliveryAccepted), stamps := t.stamps[AcceptedAt := now]);
        t := t.(dispatch := None);
      case DeliveryReturn =>
        t := t.(delivery := Some(DeliveryRejected), dispatch := None);
      case TaskRequeued =>
        t := t.(dispatch := None);
      case DispatchFailed(_) =>
        t := t.(dispatch := None, reportPath := None, delivery := None, implementation := None, report := None);
      case ChangeIntegrated(integrated, _, _) =>
        t := t.(integratedCommit := Some(integrated), stamps := t.stamps[IntegratedAt := now]);
      case TaskBlocked(blocker) =>
        t := t.(blocker := Some(blocker), stamps := t.stamps[BlockedAt := now]);
        if blocker.attemptValid != Some(true) {
          t := t.(dispatch := None);
        }
      case IntegrationFailed(blocker) =>
        t := t.(blocker := Some(blocker), stamps := t.stamps[BlockedAt := now]);
        if blocker.attemptValid != Some(true) {
          t := t.(dispatch := None);
        }
      case BlockerResolved(_) =>
        t := t.(blocker := None, reviewAfter := None);
      case BlockerRescoped(newRevision) =>
        t := t.(revision := newRevision, blocker := None, reviewAfter := None, dispatch := None);
        t := t.(delivery := None, implementation := None, report := None);
        t := t.(acceptedCommit := None, acceptancePath := None, reportPath := None);
      case BlockerCancelled =>
        t := t.(blocker := None, reviewAfter := None, dispatch := None);
        t := t.(stamps := t.stamps[CancelledAt := now]);
      case TaskCancelled =>
        t := t.(dispatch := None, stamps := t.stamps[CancelledAt := now]);
      case TaskSuperseded(successor) =>
        t := t.(supersededBy := Some(successor), dispatch := None);
        t := t.(stamps := t.stamps[SupersededAt := now]);
    }
    return Some(t);
  }
}
