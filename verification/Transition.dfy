/** One transition of the control plane: the evidence it proposes, the checks it must pass, and the files it writes in
    a fixed order, any suffix of which may fail to be written (`_execute_transition_core`). */
module Transition {
  import opened Wrappers
  import opened Approvals
  import opened Ledger
  import opened Events
  import opened EventReader
  import opened AcceptanceFiles
  import opened Texts

  function KindOf(p: Payload): Kind {
    match p
    case TaskSpecified => Specification
    case TaskDispatched(_) => Dispatching
    case DispatchAcknowledged => Acknowledgement
    case DeliverySubmission(_, _) => Submission
    case DeliveryAcceptance(_, _, _) => Acceptation
    case DeliveryReturn => Return
    case TaskRequeued => Requeue
    case ChangeIntegrated(_, _, _) => Integrating
    case TaskBlocked(_) => Blocking
    case IntegrationFailed(_) => IntegrationFailing
    case BlockerResolved(_) => Resolution
    case BlockerRescoped(_) => Rescoping
    case BlockerCancelled => BlockerCancelling
    case TaskCancelled => Cancelling
    case TaskSuperseded(_) => Superseding
    case DispatchFailed(_) => Failing
  }

  // ---- The world a transition works on ---------------------------------------------------------------------------

  datatype World = World(
    ledger: map<TaskId, Task>, events: map<EventId, Event>, outbox: map<MessageId, Outbox>,
    acceptances: map<AcceptancePath, Acceptance>, approvals: Files)

  datatype CardFacts = CardFacts(cardType: Text, role: Text, baseCommit: Commit)

  /** The surroundings of one call: Git, the clock, the PM lease, and the committed task cards that are valid. */
  datatype Env = Env(git: Git, now: Instant, leaseEpoch: int, holder: Text, cards: map<Card, CardFacts>) {
    function Now(): Instant { FloorSecond(now) }
  }

  /** The typed errors, and Python's own `ValueError`. */
  datatype Error =
    | CasConflict | Invalid | DuplicateEvidence | SchemaError | ApprovalRefused(approval: ApprovalError) | WriteError
    | Untyped

  datatype Outcome = Outcome(
    taskId: TaskId, eventId: EventId, fromState: State, toState: State, occurredAt: Instant, message: Option<MessageId>)

  // ---- Proposed evidence -----------------------------------------------------------------------------------------

  function OutboxOf(r: Request, env: Env): Option<Outbox> {
    match r.payload
    case TaskDispatched(a) =>
      Some(Outbox(a.message, r.eventId, DedupeKey(r.cas.taskId, r.cas.revision, a.newAttempt, a.dispatchId), a.role,
                  env.Now(), a.model, a.cardPath, a.cardCommit, a.baseCommit, a.branch, a.reportPath))
    case _ => None
  }

  function MessageOf(p: Payload): Option<MessageId> {
    if p.TaskDispatched? then Some(p.args.message) else None
  }

  function PathOf(p: Payload): Option<AcceptancePath> {
    if p.DeliveryAcceptance? then p.path else None
  }

  /** The attempt an event names: the new one for a dispatch, otherwise the one in the ledger. */
  function EventAttempt(t: Task, p: Payload): Option<int> {
    if p.TaskDispatched? then Some(p.args.newAttempt) else t.attempt
  }

  /** The dispatch an event names: the new one, the one the caller bound, or whatever the ledger holds. */
  function EventDispatch(t: Task, r: Request): Option<DispatchId> {
    if r.payload.TaskDispatched? then Some(r.payload.args.dispatchId)
    else if NeedsDispatchCas(r.payload) && r.dispatchCas.Some? then Some(r.dispatchCas.value.dispatchId)
    else t.DispatchId()
  }

  function ExtraOf(t: Task, r: Request, env: Env): Extra {
    match r.payload
    case TaskDispatched(_) => Digest(OutboxOf(r, env).value)
    case DispatchFailed(failure) => FailureKind(failure)
    case ChangeIntegrated(integrated, way, evidence) =>
      Integration(integrated, t.acceptedCommit, if way.Some? then Some((way.value, evidence)) else None)
    case _ => NoExtra
  }

  function EventOf(t: Task, r: Request, env: Env, guards: seq<Guard>): Event {
    Event(r.eventId, KindOf(r.payload), r.cas.taskId, r.cas.revision, EventAttempt(t, r.payload), EventDispatch(t, r),
          r.cas.state, TargetOf(r.payload), env.leaseEpoch, env.Now(), r.source, r.evidenceRefs, guards,
          ExtraOf(t, r, env))
  }

  /** The acceptance record of a task whose card could be read. */
  function AcceptanceOn(t: Task, r: Request, env: Env, card: CardFacts): Result<Acceptance, Error>
    requires r.payload.DeliveryAcceptance? && r.dispatchCas.Some? && r.payload.path.Some?
  {
    if t.implementation.Some? && r.payload.commit != t.implementation.value then Failure(SchemaError)
    else Success(Acceptance(
      r.cas.taskId, r.cas.revision, r.dispatchCas.value.dispatchId, r.dispatchCas.value.attempt,
      r.payload.path.value.review, card.cardType, card.role, env.holder, env.leaseEpoch, card.baseCommit,
      t.implementation, t.report, r.payload.commit, r.evidenceRefs, r.payload.review, env.Now()))
  }

  /** The acceptance path must name the task, the expected revision and the ledger attempt. */
  predicate PathFits(t: Task, r: Request) {
    r.payload.DeliveryAcceptance? ==>
      && r.payload.path.Some?
      && var path := r.payload.path.value;
         && path.taskId == r.cas.taskId && path.revision == r.cas.revision && path.attempt == t.Attempt()
         && path.attempt >= 1 && path.review >= 1
  }

  /** The writer reads the front matter of its own record first. */
  function Proofread(a: Acceptance, id: TaskId): (r: Result<Option<Acceptance>, Error>)
    ensures r.Success? ==> r.value == Some(a)
  {
    match ReadMatter(RecordText(a))
    case NoMatter => Failure(SchemaError)
    case BrokenMatter => Failure(Untyped)
    case Matter(m) => if MatterFits(m, id) then Success(Some(a)) else Failure(SchemaError)
  }

  /** The record a fresh acceptance writes; without a readable task card there is none. */
  function FreshAcceptance(t: Task, r: Request, env: Env): Result<Option<Acceptance>, Error>
    requires Constructible(r) && PathFits(t, r)
  {
    if !r.payload.DeliveryAcceptance? then Success(None)
    else if t.card.None? || t.card.value !in env.cards then Failure(SchemaError)
    else
      var a :- AcceptanceOn(t, r, env, env.cards[t.card.value]);
      Proofread(a, r.cas.taskId)
  }

  /** The record a replay compares with: a task without a card proposes none, instead of failing. */
  function ReplayAcceptance(t: Task, r: Request, env: Env): Result<Option<Acceptance>, Error>
    requires Constructible(r) && PathFits(t, r)
  {
    if t.card.None? then Success(None) else FreshAcceptance(t, r, env)
  }

  // ---- Checks ----------------------------------------------------------------------------------------------------

  /** `_validate_cas`. */
  predicate CasHolds(t: Task, r: Request, env: Env) {
    && r.cas.snapshot == env.git.head
    && r.cas.revision == t.revision
    && MayLeave(r.payload, t.state)
    && r.cas.state == t.state
    && (NeedsDispatchCas(r.payload) ==>
          r.dispatchCas.Some? && t.DispatchId() == Some(r.dispatchCas.value.dispatchId)
          && t.attempt == Some(r.dispatchCas.value.attempt))
    && (r.payload.TaskDispatched? ==> t.dispatch.None?)
    && (r.payload.BlockerRescoped? ==> r.payload.newRevision == r.cas.revision + 1)
  }

  /** What an integration's approval must be for, by the front matter of the acceptance record. */
  function IntegrationSubject(m: map<Heading, Value>, t: Task, cas: Cas, integrated: Commit, equivalent: bool)
    : Result<Subject, Error>
  {
    var commit, dispatch := Lookup(m, AcceptedHeading), Lookup(m, DispatchHeading);
    if Lookup(m, TaskHeading) != Some(Words(cas.taskId.text)) then Failure(SchemaError)
    else if !EqualsNumber(Lookup(m, RevisionHeading), cas.revision) then Failure(SchemaError)
    else if t.attempt.None? || !EqualsNumber(Lookup(m, AttemptHeading), t.attempt.value) then Failure(SchemaError)
    else if commit != Some(Words(integrated.text)) && !equivalent then Failure(SchemaError)
    else if commit.None? || !commit.value.Words? then Failure(SchemaError)
    else if dispatch.None? || !dispatch.value.Words? || dispatch.value.text == "" then Failure(SchemaError)
    else if t.attempt.value < 1 || !IsSafeText(dispatch.value.text) || !IsShaText(commit.value.text) then Failure(Untyped)
    else
      Success(Subject(cas.taskId, cas.revision, t.attempt.value, DispatchId(dispatch.value.text),
                      Some(Commit(commit.value.text))))
  }

  /** What the approval must be for (`_build_approval_subject`): an integration takes the dispatch and the accepted
      commit from the acceptance record the ledger points to, as its front matter reads. */
  function SubjectOf(w: World, t: Task, r: Request): Result<Subject, Error>
    requires IsGated(r.payload) && Constructible(r)
  {
    match r.payload
    case TaskDispatched(a) => Success(Subject(r.cas.taskId, r.cas.revision, a.newAttempt, a.dispatchId, None))
    case DeliveryAcceptance(_, _, _) =>
      if r.dispatchCas.value.attempt < 1 then Failure(Untyped)
      else Success(Subject(r.cas.taskId, r.cas.revision, r.dispatchCas.value.attempt, r.dispatchCas.value.dispatchId, None))
    case ChangeIntegrated(integrated, way, evidence) =>
      if t.acceptancePath.None? || t.acceptancePath.value !in w.acceptances then Failure(SchemaError)
      else
        match ReadRecord(w.acceptances[t.acceptancePath.value])
        case NoMatter => Failure(SchemaError)
        case BrokenMatter => Failure(Untyped)
        case Matter(m) => IntegrationSubject(m, t, r.cas, integrated, way.Some? && evidence.Some?)
  }

  /** The grant a gated transition is allowed by, none for the others. */
  ghost function GrantFor(w: World, t: Task, r: Request, env: Env): Result<Option<Grant>, Error>
    requires Constructible(r)
  {
    if !IsGated(r.payload) then Success(None)
    else
      var subject :- SubjectOf(w, t, r);
      match Require(w.approvals, env.git, CheckRequest(ScopeOf(r.payload), subject, env.git.head), env.now)
      case Success(g) => Success(Some(g))
      case Failure(e) => Failure(ApprovalRefused(e))
  }

  function ApprovalGuards(r: Request, env: Env, grant: Option<Grant>): seq<Guard> {
    if grant.Some? then [ApprovalGuard(ScopeOf(r.payload), grant.value.approvalId, env.Now(), grant.value.eventId)]
    else []
  }

  // ---- The decision ----------------------------------------------------------------------------------------------

  datatype Plan =
    | Refuse(error: Error)
    | Replay(outcome: Outcome)
    | Write(event: Event, outbox: Option<Outbox>, acceptance: Option<Acceptance>, task: Task, grant: Option<Grant>)

  /** No event file: nothing else of the transition may be there, then all checks, then the write. */
  ghost function PlanFresh(w: World, t: Task, r: Request, env: Env): Plan
    requires Constructible(r) && PathFits(t, r)
  {
    if Orphans(w, t, r) then Refuse(DuplicateEvidence)
    else if r.payload.TaskDispatched? && r.payload.args.newAttempt != t.Attempt() + 1 then Refuse(CasConflict)
    else
      match FreshAcceptance(t, r, env)
      case Failure(e) => Refuse(e)
      case Success(acceptance) =>
        if !CasHolds(t, r, env) then Refuse(CasConflict)
        else
          match GrantFor(w, t, r, env)
          case Failure(e) => Refuse(e)
          case Success(grant) =>
            Write(EventOf(t, r, env, r.guards + ApprovalGuards(r, env, grant)), OutboxOf(r, env), acceptance,
                  After(t, r.payload, env.Now()), grant)
  }

  predicate Orphans(w: World, t: Task, r: Request) {
    || (r.payload.TaskDispatched? && r.payload.args.message in w.outbox)
    || (r.payload.DeliveryAcceptance? && r.payload.path.Some? && r.payload.path.value in w.acceptances)
    || t.state == TargetOf(r.payload)
  }

  /** The proposed event of a gated replay gets the approval guard as it was recovered from the text of the existing one;
      its guards are those of the existing event exactly if the caller's come first and the texts agree. */
  predicate Restored(existing: seq<Guard>, r: Request, recovery: Recovery) {
    var n := |r.guards|;
    && |existing| == n + 1 && existing[..n] == r.guards && existing[n].ApprovalGuard?
    && existing[n].scope == ScopeOf(r.payload) && GuardTexts(existing[n]) == recovery
  }

  function OutcomeOf(r: Request, occurredAt: Instant): Outcome {
    Outcome(r.cas.taskId, r.eventId, r.cas.state, TargetOf(r.payload), occurredAt, MessageOf(r.payload))
  }

  /** The strict comparison of proposed and existing evidence (`_check_idempotency_and_duplicates`). */
  predicate SameEvidence(w: World, t: Task, r: Request, event: Event, outbox: Option<Outbox>, acceptance: Option<Acceptance>)
    requires r.eventId in w.events && PathFits(t, r)
  {
    && w.events[r.eventId] == event
    && t.state == TargetOf(r.payload)
    && (r.payload.TaskDispatched? ==>
          r.payload.args.message in w.outbox && outbox == Some(w.outbox[r.payload.args.message]))
    && (r.payload.DeliveryAcceptance? ==>
          r.payload.path.value in w.acceptances && acceptance.Some?
          && RecordText(acceptance.value) == RecordText(w.acceptances[r.payload.path.value]))
  }

  /** The event file exists: the call is a replay of it or a conflict with it. */
  function PlanReplay(w: World, t: Task, r: Request, env: Env): Plan
    requires Constructible(r) && PathFits(t, r) && r.eventId in w.events
  {
    var existing := w.events[r.eventId];
    if !IsGated(r.payload) then Compare(w, t, r, env, r.guards)
    else
      var recovery := RecoverGuard(EventText(existing), ScopeOf(r.payload));
      match recovery
      case Unreadable => Refuse(SchemaError)
      case Broken => Refuse(Untyped)
      case Recovered(_, _, _) =>
        if Restored(existing.guards, r, recovery) then Compare(w, t, r, env, existing.guards)
        else if ReplayAcceptance(t, r, env).Failure? then Refuse(ReplayAcceptance(t, r, env).error)
        else Refuse(DuplicateEvidence)
  }

  /** Rebuilding the evidence with these guards and comparing it. */
  function Compare(w: World, t: Task, r: Request, env: Env, guards: seq<Guard>): Plan
    requires Constructible(r) && PathFits(t, r) && r.eventId in w.events
  {
    match ReplayAcceptance(t, r, env)
    case Failure(e) => Refuse(e)
    case Success(acceptance) =>
      if SameEvidence(w, t, r, EventOf(t, r, env, guards), OutboxOf(r, env), acceptance)
      then Replay(OutcomeOf(r, if UpdatedAt in t.stamps then t.stamps[UpdatedAt] else 0))
      else Refuse(DuplicateEvidence)
  }

  ghost function Prepare(w: World, r: Request, env: Env): Plan
    requires Constructible(r)
  {
    if r.cas.taskId !in w.ledger then Refuse(CasConflict)
    else
      var t := w.ledger[r.cas.taskId];
      if !PathFits(t, r) then Refuse(Invalid)
      else if exists i :: 0 <= i < |r.guards| && r.guards[i].ApprovalGuard? then Refuse(Invalid)
      else if r.eventId in w.events then PlanReplay(w, t, r, env)
      else PlanFresh(w, t, r, env)
  }

  // ---- The writes ------------------------------------------------------------------------------------------------

  /** One atomic file replacement; the two derived views are not part of the world. */
  datatype FileWrite =
    | EventWrite(event: Event) | OutboxWrite(outbox: Outbox) | AcceptanceWrite(path: AcceptancePath, record: Acceptance)
    | LedgerWrite(taskId: TaskId, task: Task) | ViewWrite

  /** Event, outbox, acceptance, ledger, then the views. */
  function Writes(r: Request, plan: Plan): seq<FileWrite>
    requires plan.Write?
  {
    [EventWrite(plan.event)]
    + (if plan.outbox.Some? then [OutboxWrite(plan.outbox.value)] else [])
    + (if plan.acceptance.Some? && PathOf(r.payload).Some?
       then [AcceptanceWrite(PathOf(r.payload).value, plan.acceptance.value)] else [])
    + [LedgerWrite(r.cas.taskId, plan.task), ViewWrite, ViewWrite]
  }

  function Put(w: World, f: FileWrite): World {
    match f
    case EventWrite(e) => w.(events := w.events[e.id := e])
    case OutboxWrite(o) => w.(outbox := w.outbox[o.message := o])
    case AcceptanceWrite(path, a) => w.(acceptances := w.acceptances[path := a])
    case LedgerWrite(id, t) => w.(ledger := w.ledger[id := t])
    case ViewWrite => w
  }

  function PutAll(w: World, fs: seq<FileWrite>): World
    decreases |fs|
  {
    if fs == [] then w else PutAll(Put(w, fs[0]), fs[1..])
  }

  /** A call of which only the first `budget` file replacements take place. */
  ghost function Execute(w: World, r: Request, env: Env, budget: nat): (World, Result<Outcome, Error>)
    requires Constructible(r)
  {
    var plan := Prepare(w, r, env);
    match plan
    case Refuse(e) => (w, Failure(e))
    case Replay(o) => (w, Success(o))
    case Write(_, _, _, _, _) =>
      var ws := Writes(r, plan);
      if budget < |ws| then (PutAll(w, ws[..budget]), Failure(WriteError))
      else (PutAll(w, ws), Success(OutcomeOf(r, env.Now())))
  }
}
