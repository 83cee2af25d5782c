/** Runs in which the control plane does something other than it is said to: work without a dispatch, and acceptance of
    what the attempt never submitted. */
module Deviations {
  import opened Wrappers
  import opened Approvals
  import opened ApprovalRuns
  import opened Ledger
  import opened Events
  import opened EventReader
  import opened AcceptanceFiles
  import opened Transition
  import opened History
  import opened ControlPlaneRuns

  // ---- Single calls -------------------------------------------------------------------------------------------------

  /** A request for the task as it is, under the current head. */
  function Ask(id: TaskId, t: Task, env: Env, e: EventId, p: Payload): Request {
    var bound := if NeedsDispatchCas(p) && t.dispatch.Some? && t.attempt.Some?
                 then Some(DispatchCas(t.dispatch.value.id, t.attempt.value)) else None;
    Ledger.Request(Cas(id, t.revision, t.state, env.git.head), bound, e, p, None, [], [])
  }

  /** A transition that needs no approval and writes no record but its event goes through. */
  lemma UngatedWrites(w: World, id: TaskId, env: Env, e: EventId, p: Payload)
    requires id in w.ledger && e !in w.events && !IsGated(p)
    requires Constructible(Ask(id, w.ledger[id], env, e, p)) && CasHolds(w.ledger[id], Ask(id, w.ledger[id], env, e, p), env)
    requires w.ledger[id].state != TargetOf(p)
    ensures var t, r := w.ledger[id], Ask(id, w.ledger[id], env, e, p);
      Prepare(w, r, env) == Plan.Write(EventOf(t, r, env, []), None, None, After(t, p, env.Now()), None)
  {
    hide CasHolds, EventOf, After, PlanReplay, Constructible;
    var none: seq<Guard> := [];
    assert none + none == none;
  }

  /** Any complete call that gets to its writes. */
  lemma WriteCommits(s: System, r: Request, env: Env)
    requires Constructible(r) && Sound(s.world.approvals) && Prepare(s.world, r, env).Write? && r.cas.taskId in s.world.ledger
    ensures var plan, s' := Prepare(s.world, r, env), Next(s, Transit(r, env, 6));
      && s'.world.ledger == s.world.ledger[r.cas.taskId := plan.task] && s'.world.approvals == s.world.approvals
      && s'.world.events == s.world.events[plan.event.id := plan.event]
      && s'.log == s.log + [EntryOf(s.world, r, env, plan)]
      && (plan.outbox.None? ==> s'.world.outbox == s.world.outbox)
      && (plan.acceptance.None? ==> s'.world.acceptances == s.world.acceptances)
  {
    hide Prepare, Sound, Execute, Constructible;
    ExecuteLands(s.world, r, env, 6);
  }

  /** The system after a complete call for the task as it is. */
  ghost function Taken(s: System, id: TaskId, env: Env, e: EventId, p: Payload): System {
    if id in s.world.ledger && Constructible(Ask(id, s.world.ledger[id], env, e, p))
    then Next(s, Transit(Ask(id, s.world.ledger[id], env, e, p), env, 6)) else s
  }

  /** One more commit for the task, with this payload; nothing else but its evidence is new. */
  ghost predicate Advances(s: System, s': System, id: TaskId, env: Env, e: EventId, p: Payload) {
    && id in s.world.ledger
    && s'.world.ledger == s.world.ledger[id := After(s.world.ledger[id], p, env.Now())]
    && s'.world.approvals == s.world.approvals && s'.world.events.Keys == s.world.events.Keys + {e}
    && (!p.TaskDispatched? ==> s'.world.outbox == s.world.outbox)
    && s'.world.acceptances.Keys ==
         s.world.acceptances.Keys + (if p.DeliveryAcceptance? && p.path.Some? then {p.path.value} else {})
    && |s'.log| == |s.log| + 1 && s'.log[..|s.log|] == s.log
    && s'.log[|s.log|].Payload() == p && s'.log[|s.log|].Task() == id
  }

  lemma UngatedCommits(s: System, id: TaskId, env: Env, e: EventId, p: Payload)
    requires Sound(s.world.approvals) && id in s.world.ledger && e !in s.world.events && !IsGated(p)
    requires var t := s.world.ledger[id];
             Constructible(Ask(id, t, env, e, p)) && CasHolds(t, Ask(id, t, env, e, p), env) && t.state != TargetOf(p)
    ensures Advances(s, Taken(s, id, env, e, p), id, env, e, p)
  {
    hide Prepare, Sound, CasHolds, Constructible, After, Next, EventOf;
    var t := s.world.ledger[id];
    UngatedWrites(s.world, id, env, e, p);
    WriteCommits(s, Ask(id, t, env, e, p), env);
    EventIdIs(t, Ask(id, t, env, e, p), env, []);
  }

  lemma EventIdIs(t: Task, r: Request, env: Env, guards: seq<Guard>)
    ensures EventOf(t, r, env, guards).id == r.eventId
  {
  }

  // ---- Work without a dispatch --------------------------------------------------------------------------------------

  /** What blocking leaves of a task, apart from its dispatch. */
  predicate SameWork(t: Task, u: Task) {
    && u.revision == t.revision && u.attempt == t.attempt && u.implementation == t.implementation && u.card == t.card
    && u.report == t.report
  }

  lemma BlockStep(s: System, id: TaskId, env: Env, e: EventId, blocker: Blocker)
    requires Sound(s.world.approvals) && id in s.world.ledger && e !in s.world.events
    requires var t := s.world.ledger[id]; !IsTerminal(t.state) && !t.state.Blocked? && t.revision >= 1
    ensures Advances(s, Taken(s, id, env, e, TaskBlocked(blocker)), id, env, e, TaskBlocked(blocker))
    ensures var t, u := s.world.ledger[id], After(s.world.ledger[id], TaskBlocked(blocker), env.Now());
      && u.state.Blocked? && SameWork(t, u) && u.dispatch == if blocker.attemptValid == Some(true) then t.dispatch else None
  {
    hide Sound, Taken, Advances;
    UngatedCommits(s, id, env, e, TaskBlocked(blocker));
  }

  lemma ResolveStep(s: System, id: TaskId, env: Env, e: EventId, to: State)
    requires Sound(s.world.approvals) && id in s.world.ledger && e !in s.world.events && IsResumable(to)
    requires var t := s.world.ledger[id]; t.state.Blocked? && t.revision >= 1
    ensures Advances(s, Taken(s, id, env, e, BlockerResolved(to)), id, env, e, BlockerResolved(to))
    ensures var t, u := s.world.ledger[id], After(s.world.ledger[id], BlockerResolved(to), env.Now());
      && u.state == to && SameWork(t, u) && u.dispatch == t.dispatch
  {
    hide Sound, Taken, Advances;
    UngatedCommits(s, id, env, e, BlockerResolved(to));
  }

  /** Blocking work that is said not to be valid any more, and resolving the blocker into the work again, leaves a task in
      progress without a dispatch. */
  lemma StrandedInTwoSteps(s: System, id: TaskId, env: Env, e: EventId, f: EventId, blocker: Blocker)
    requires Sound(s.world.approvals) && id in s.world.ledger && e != f && e !in s.world.events && f !in s.world.events
    requires var t := s.world.ledger[id]; t.state.InProgress? && t.revision >= 1
    requires blocker.attemptValid != Some(true)
    ensures var s1 := Taken(s, id, env, e, TaskBlocked(blocker));
            var s2 := Taken(s1, id, env, f, BlockerResolved(InProgress));
      && |s1.log| == |s.log| + 1 && |s2.log| == |s.log| + 2 && id in s2.world.ledger
      && s2.world.ledger[id].state.InProgress? && s2.world.ledger[id].dispatch.None?
  {
    hide Sound, Taken, After;
    BlockStep(s, id, env, e, blocker);
    ResolveStep(Taken(s, id, env, e, TaskBlocked(blocker)), id, env, f, InProgress);
  }

  // ---- Acceptance without a submission ------------------------------------------------------------------------------

  /** The record of an acceptance without references. */
  function RecordOn(id: TaskId, t: Task, env: Env, path: AcceptancePath, commit: Commit, args: ReviewArgs): Acceptance
    requires t.dispatch.Some? && t.attempt.Some? && t.card.Some? && t.card.value in env.cards
  {
    var card := env.cards[t.card.value];
    Acceptance(id, t.revision, t.dispatch.value.id, t.attempt.value, path.review, card.cardType, card.role, env.holder,
               env.leaseEpoch, card.baseCommit, t.implementation, t.report, commit, [], args, env.Now())
  }

  /** What stands in the way of an acceptance, apart from the state of the task: the path and the text of its record, the
      task card and the approval. */
  ghost predicate Acceptable(w: World, id: TaskId, t: Task, env: Env, path: AcceptancePath, commit: Commit, args: ReviewArgs) {
    && t.dispatch.Some? && t.attempt.Some? && t.attempt.value >= 1 && t.revision >= 1
    && path == AcceptancePath(id, t.revision, t.attempt.value, path.review) && path.review >= 1 && path !in w.acceptances
    && t.card.Some? && t.card.value in env.cards
    && Proofread(RecordOn(id, t, env, path, commit, args), id).Success?
    && Require(w.approvals, env.git,
               CheckRequest(AcceptScope, Subject(id, t.revision, t.attempt.value, t.dispatch.value.id, None), env.git.head),
               env.now).Success?
  }

  /** The task that a call writes, if it gets to its writes. */
  ghost function PlannedTask(w: World, r: Request, env: Env): Option<Task> {
    if Constructible(r) && Prepare(w, r, env).Write? then Some(Prepare(w, r, env).task) else None
  }

  lemma AcceptanceWrites(w: World, id: TaskId, env: Env, e: EventId, commit: Commit, path: AcceptancePath, args: ReviewArgs)
    requires id in w.ledger && e !in w.events && w.ledger[id].state.ReviewReady?
    requires Acceptable(w, id, w.ledger[id], env, path, commit, args)
    requires w.ledger[id].implementation.Some? ==> w.ledger[id].implementation == Some(commit)
    ensures var p := DeliveryAcceptance(commit, Some(path), args);
      PlannedTask(w, Ask(id, w.ledger[id], env, e, p), env) == Some(After(w.ledger[id], p, env.Now()))
  {
    hide Proofread, EventOf, After, PlanReplay, Require;
  }

  /** One more commit for the task, with this payload. */
  predicate Commits(s: System, s': System, id: TaskId, task: Task, p: Payload) {
    && s'.world.ledger == s.world.ledger[id := task]
    && |s'.log| == |s.log| + 1 && s'.log[..|s.log|] == s.log && s'.log[|s.log|].Payload() == p
  }

  lemma AcceptanceCommits(s: System, id: TaskId, env: Env, e: EventId, commit: Commit, path: AcceptancePath, args: ReviewArgs)
    requires Sound(s.world.approvals) && id in s.world.ledger && e !in s.world.events && s.world.ledger[id].state.ReviewReady?
    requires Acceptable(s.world, id, s.world.ledger[id], env, path, commit, args)
    requires s.world.ledger[id].implementation.Some? ==> s.world.ledger[id].implementation == Some(commit)
    ensures var p := DeliveryAcceptance(commit, Some(path), args);
      Commits(s, Taken(s, id, env, e, p), id, After(s.world.ledger[id], p, env.Now()), p)
  {
    hide Sound, Prepare, Next, After, Acceptable, Constructible;
    AcceptanceWrites(s.world, id, env, e, commit, path, args);
    WriteCommits(s, Ask(id, s.world.ledger[id], env, e, DeliveryAcceptance(commit, Some(path), args)), env);
  }

  /** In two steps, none of which submits anything, a task that is being worked on comes under review. */
  lemma ReviewedUnsubmitted(s: System, id: TaskId, env: Env, e: EventId, f: EventId, blocker: Blocker, path: AcceptancePath,
                            commit: Commit, args: ReviewArgs)
    requires Sound(s.world.approvals) && id in s.world.ledger && e != f && e !in s.world.events && f !in s.world.events
    requires s.world.ledger[id].state.Dispatched? || s.world.ledger[id].state.InProgress?
    requires Acceptable(s.world, id, s.world.ledger[id], env, path, commit, args)
    requires blocker.attemptValid == Some(true)
    ensures var s1 := Taken(s, id, env, e, TaskBlocked(blocker));
            var s2 := Taken(s1, id, env, f, BlockerResolved(ReviewReady));
      && Unsubmitted(s, s1) && Unsubmitted(s1, s2) && id in s2.world.ledger && s2.world.approvals == s.world.approvals
      && s2.world.events.Keys == s.world.events.Keys + {e, f}
      && var t, u := s.world.ledger[id], s2.world.ledger[id];
         u.state.ReviewReady? && SameWork(t, u) && Acceptable(s2.world, id, u, env, path, commit, args)
  {
    hide Sound, Taken, Require, After, Acceptable;
    AcceptableParts(s.world, id, s.world.ledger[id], env, path, commit, args);
    var s1 := Taken(s, id, env, e, TaskBlocked(blocker));
    BlockStep(s, id, env, e, blocker);
    var s2 := Taken(s1, id, env, f, BlockerResolved(ReviewReady));
    ResolveStep(s1, id, env, f, ReviewReady);
    StaysAcceptable(s.world, s2.world, id, s.world.ledger[id], s2.world.ledger[id], env, path, commit, args);
  }

  /** One more commit, which is no submission. */
  predicate Unsubmitted(s: System, s': System) {
    && |s'.log| == |s.log| + 1 && s'.log[..|s.log|] == s.log && !s'.log[|s.log|].Payload().DeliverySubmission?
  }

  /** In three steps, none of which submits anything, a task that is being worked on is blocked, resumed under review and
      accepted: any commit if it has no delivery on record, and otherwise the one on record, from whatever attempt. */
  lemma AcceptedUnsubmitted(s: System, id: TaskId, env: Env, e: EventId, f: EventId, g: EventId, blocker: Blocker,
                            commit: Commit, path: AcceptancePath, args: ReviewArgs)
    requires Sound(s.world.approvals) && id in s.world.ledger && e != f && e != g && f != g
    requires e !in s.world.events && f !in s.world.events && g !in s.world.events && blocker.attemptValid == Some(true)
    requires s.world.ledger[id].state.Dispatched? || s.world.ledger[id].state.InProgress?
    requires Acceptable(s.world, id, s.world.ledger[id], env, path, commit, args)
    requires s.world.ledger[id].implementation.Some? ==> s.world.ledger[id].implementation == Some(commit)
    ensures var s1 := Taken(s, id, env, e, TaskBlocked(blocker));
            var s2 := Taken(s1, id, env, f, BlockerResolved(ReviewReady));
            var s3 := Taken(s2, id, env, g, DeliveryAcceptance(commit, Some(path), args));
      AcceptsUnsubmitted(s, s1, s2, s3, id, commit)
  {
    hide Sound, Taken, Acceptable, After;
    var s1 := Taken(s, id, env, e, TaskBlocked(blocker));
    var s2 := Taken(s1, id, env, f, BlockerResolved(ReviewReady));
    ReviewedUnsubmitted(s, id, env, e, f, blocker, path, commit, args);
    AcceptanceCommits(s2, id, env, g, commit, path, args);
    AfterAcceptance(s2.world.ledger[id], commit, path, args, env.Now());
  }

  /** Three commits, none of which submits anything and the last of which accepts this commit for the attempt. */
  predicate AcceptsUnsubmitted(s: System, s1: System, s2: System, s3: System, id: TaskId, commit: Commit) {
    && Unsubmitted(s, s1) && Unsubmitted(s1, s2) && Unsubmitted(s2, s3) && s3.log[|s.log| + 2].Payload().DeliveryAcceptance?
    && id in s.world.ledger && id in s3.world.ledger && s3.world.ledger[id].acceptedCommit == Some(commit)
    && s3.world.ledger[id].attempt == s.world.ledger[id].attempt
  }

  lemma AcceptableParts(w: World, id: TaskId, t: Task, env: Env, path: AcceptancePath, commit: Commit, args: ReviewArgs)
    requires Acceptable(w, id, t, env, path, commit, args)
    ensures t.revision >= 1
  {
    hide Require;
  }

  lemma StaysAcceptable(w: World, w': World, id: TaskId, t: Task, u: Task, env: Env, path: AcceptancePath, commit: Commit,
                        args: ReviewArgs)
    requires Acceptable(w, id, t, env, path, commit, args) && SameWork(t, u) && u.dispatch == t.dispatch
    requires w'.approvals == w.approvals && w'.acceptances.Keys == w.acceptances.Keys
    ensures Acceptable(w', id, u, env, path, commit, args)
  {
    hide Require;
  }

  lemma AfterAcceptance(t: Task, commit: Commit, path: AcceptancePath, args: ReviewArgs, now: Instant)
    ensures var u := After(t, DeliveryAcceptance(commit, Some(path), args), now);
      u.acceptedCommit == Some(commit) && u.attempt == t.attempt
  {
  }

  // ---- A delivery that outlives its attempt -------------------------------------------------------------------------

  lemma SubmitStep(s: System, id: TaskId, env: Env, e: EventId, implementation: Commit, report: Commit)
    requires Sound(s.world.approvals) && id in s.world.ledger && e !in s.world.events
    requires var t := s.world.ledger[id];
             t.state.InProgress? && t.dispatch.Some? && t.attempt.Some? && t.attempt.value >= 0 && t.revision >= 1
    ensures Advances(s, Taken(s, id, env, e, DeliverySubmission(implementation, report)), id, env, e,
                     DeliverySubmission(implementation, report))
    ensures var t, u := s.world.ledger[id], After(s.world.ledger[id], DeliverySubmission(implementation, report), env.Now());
      && u.state.ReviewReady? && u.dispatch == t.dispatch && u.attempt == t.attempt && u.revision == t.revision
      && u.implementation == Some(implementation)
  {
    hide Sound, Taken, Advances;
    UngatedCommits(s, id, env, e, DeliverySubmission(implementation, report));
  }

  lemma ReturnStep(s: System, id: TaskId, env: Env, e: EventId)
    requires Sound(s.world.approvals) && id in s.world.ledger && e !in s.world.events
    requires var t := s.world.ledger[id];
             t.state.ReviewReady? && t.dispatch.Some? && t.attempt.Some? && t.attempt.value >= 0 && t.revision >= 1
    ensures Advances(s, Taken(s, id, env, e, DeliveryReturn), id, env, e, DeliveryReturn)
    ensures var t, u := s.world.ledger[id], After(s.world.ledger[id], DeliveryReturn, env.Now());
      && u.state.Returned? && u.dispatch.None? && u.attempt == t.attempt && u.revision == t.revision
      && u.implementation == t.implementation
  {
    hide Sound, Taken, Advances;
    UngatedCommits(s, id, env, e, DeliveryReturn);
  }

  lemma RequeueStep(s: System, id: TaskId, env: Env, e: EventId)
    requires Sound(s.world.approvals) && id in s.world.ledger && e !in s.world.events
    requires var t := s.world.ledger[id]; t.state.Returned? && t.revision >= 1
    ensures Advances(s, Taken(s, id, env, e, TaskRequeued), id, env, e, TaskRequeued)
    ensures var t, u := s.world.ledger[id], After(s.world.ledger[id], TaskRequeued, env.Now());
      && u.state.Ready? && u.dispatch.None? && u.attempt == t.attempt && u.revision == t.revision
      && u.implementation == t.implementation
  {
    hide Sound, Taken, Advances;
    UngatedCommits(s, id, env, e, TaskRequeued);
  }

  /** An approval to dispatch the task as it is. */
  ghost predicate Dispatchable(w: World, id: TaskId, t: Task, env: Env, args: DispatchArgs) {
    && t.revision >= 1 && args.newAttempt == t.Attempt() + 1 >= 1
    && Require(w.approvals, env.git,
               CheckRequest(DispatchScope, Subject(id, t.revision, args.newAttempt, args.dispatchId, None), env.git.head),
               env.now).Success?
  }

  lemma DispatchWrites(w: World, id: TaskId, env: Env, e: EventId, args: DispatchArgs)
    requires id in w.ledger && e !in w.events && args.message !in w.outbox
    requires w.ledger[id].state.Ready? && w.ledger[id].dispatch.None? && Dispatchable(w, id, w.ledger[id], env, args)
    ensures var t, p := w.ledger[id], TaskDispatched(args);
      PlansDispatch(w, Ask(id, t, env, e, p), env, After(t, p, env.Now()), e)
  {
    hide EventOf, After, PlanReplay, Require, Proofread;
    var t, p := w.ledger[id], TaskDispatched(args);
    var r := Ask(id, t, env, e, p);
    forall guards ensures EventOf(t, r, env, guards).id == e { EventIdIs(t, r, env, guards); }
  }

  ghost predicate PlansDispatch(w: World, r: Request, env: Env, task: Task, e: EventId) {
    && Constructible(r) && Prepare(w, r, env).Write? && Prepare(w, r, env).task == task
    && Prepare(w, r, env).acceptance.None? && Prepare(w, r, env).event.id == e
  }

  lemma DispatchStep(s: System, id: TaskId, env: Env, e: EventId, args: DispatchArgs)
    requires Sound(s.world.approvals) && id in s.world.ledger && e !in s.world.events && args.message !in s.world.outbox
    requires s.world.ledger[id].state.Ready? && s.world.ledger[id].dispatch.None?
    requires Dispatchable(s.world, id, s.world.ledger[id], env, args)
    ensures Advances(s, Taken(s, id, env, e, TaskDispatched(args)), id, env, e, TaskDispatched(args))
    ensures var t, u := s.world.ledger[id], After(s.world.ledger[id], TaskDispatched(args), env.Now());
      && u.state.Dispatched? && u.DispatchId() == Some(args.dispatchId) && u.attempt == Some(args.newAttempt)
      && u.revision == t.revision && u.implementation == t.implementation
  {
    hide Sound, Prepare, Next, Require, Dispatchable, Constructible;
    DispatchWrites(s.world, id, env, e, args);
    WriteCommits(s, Ask(id, s.world.ledger[id], env, e, TaskDispatched(args)), env);
  }

  /** The names of the four calls that deliver, return, requeue and dispatch again. */
  datatype Round = Round(submit: EventId, giveBack: EventId, requeue: EventId, dispatch: EventId) {
    predicate Fresh(w: World) {
      && submit !in w.events && giveBack !in w.events && requeue !in w.events && dispatch !in w.events
      && submit != giveBack && submit != requeue && submit != dispatch && giveBack != requeue && giveBack != dispatch
      && requeue != dispatch
    }
  }

  ghost function AfterRound(s: System, id: TaskId, env: Env, names: Round, implementation: Commit, report: Commit,
                            args: DispatchArgs): System
  {
    var s1 := Taken(s, id, env, names.submit, DeliverySubmission(implementation, report));
    var s2 := Taken(s1, id, env, names.giveBack, DeliveryReturn);
    Taken(Taken(s2, id, env, names.requeue, TaskRequeued), id, env, names.dispatch, TaskDispatched(args))
  }

  /** The task is being worked on, and there is an approval to dispatch it once more. */
  ghost predicate Redispatchable(w: World, id: TaskId, t: Task, env: Env, args: DispatchArgs) {
    && t.state.InProgress? && t.dispatch.Some? && t.attempt.Some? && t.attempt.value >= 0 && Dispatchable(w, id, t, env, args)
  }

  function RoundTask(t: Task, now: Instant, implementation: Commit, report: Commit, args: DispatchArgs): Task {
    After(After(After(After(t, DeliverySubmission(implementation, report), now), DeliveryReturn, now), TaskRequeued, now),
          TaskDispatched(args), now)
  }

  /** What the four calls leave. */
  ghost predicate RoundDone(s: System, s4: System, id: TaskId, task: Task, names: Round) {
    && s4.world.ledger == s.world.ledger[id := task] && s4.world.approvals == s.world.approvals
    && s4.world.acceptances.Keys == s.world.acceptances.Keys
    && s4.world.events.Keys == s.world.events.Keys + {names.submit, names.giveBack, names.requeue, names.dispatch}
    && |s4.log| == |s.log| + 4
  }

  /** Neither the return nor the requeue nor the next dispatch clears a delivery: the next attempt starts with that of
      the one before on record. */
  lemma DeliverySurvives(s: System, id: TaskId, env: Env, names: Round, implementation: Commit, report: Commit,
                         args: DispatchArgs)
    requires Sound(s.world.approvals) && id in s.world.ledger && names.Fresh(s.world) && args.message !in s.world.outbox
    requires Redispatchable(s.world, id, s.world.ledger[id], env, args)
    ensures var s4 := AfterRound(s, id, env, names, implementation, report, args);
      && id in s.world.ledger
      && RoundDone(s, s4, id, RoundTask(s.world.ledger[id], env.Now(), implementation, report, args), names)
    ensures var s4 := AfterRound(s, id, env, names, implementation, report, args);
      && id in s4.world.ledger
      && var u := s4.world.ledger[id];
         && u.state.Dispatched? && u.attempt == Some(args.newAttempt) && u.DispatchId() == Some(args.dispatchId)
         && u.implementation == Some(implementation)
  {
    hide Sound, Taken, After, Require, Advances, RoundDone, Dispatchable;
    var t := s.world.ledger[id];
    RevisionOf(s.world, id, t, env, args);
    var s1 := Taken(s, id, env, names.submit, DeliverySubmission(implementation, report));
    SubmitStep(s, id, env, names.submit, implementation, report);
    Advanced(s, s1, id, env, names.submit, DeliverySubmission(implementation, report));
    var s2 := Taken(s1, id, env, names.giveBack, DeliveryReturn);
    ReturnStep(s1, id, env, names.giveBack);
    Advanced(s1, s2, id, env, names.giveBack, DeliveryReturn);
    var s3 := Taken(s2, id, env, names.requeue, TaskRequeued);
    RequeueStep(s2, id, env, names.requeue);
    Advanced(s2, s3, id, env, names.requeue, TaskRequeued);
    StaysDispatchable(s.world, s3.world, id, t, s3.world.ledger[id], env, args);
    DispatchStep(s3, id, env, names.dispatch, args);
    Advanced(s3, Taken(s3, id, env, names.dispatch, TaskDispatched(args)), id, env, names.dispatch, TaskDispatched(args));
    FourDone(s, s1, s2, s3, Taken(s3, id, env, names.dispatch, TaskDispatched(args)), id, env, names, implementation, report, args);
  }

  /** The parts of an advance that the next one needs. */
  lemma Advanced(s: System, s': System, id: TaskId, env: Env, e: EventId, p: Payload)
    requires Advances(s, s', id, env, e, p)
    ensures id in s.world.ledger && id in s'.world.ledger && s'.world.ledger[id] == After(s.world.ledger[id], p, env.Now())
    ensures s'.world.approvals == s.world.approvals && s'.world.events.Keys == s.world.events.Keys + {e}
    ensures !p.TaskDispatched? ==> s'.world.outbox == s.world.outbox
  {
    hide After;
  }

  lemma RevisionOf(w: World, id: TaskId, t: Task, env: Env, args: DispatchArgs)
    requires Redispatchable(w, id, t, env, args)
    ensures t.revision >= 1
  {
    hide Require;
  }

  lemma StaysDispatchable(w: World, w': World, id: TaskId, t: Task, u: Task, env: Env, args: DispatchArgs)
    requires Dispatchable(w, id, t, env, args) && w'.approvals == w.approvals && u.revision == t.revision && u.attempt == t.attempt
    ensures Dispatchable(w', id, u, env, args)
  {
    hide Require;
  }

  lemma FourDone(s: System, s1: System, s2: System, s3: System, s4: System, id: TaskId, env: Env, names: Round,
                 implementation: Commit, report: Commit, args: DispatchArgs)
    requires Advances(s, s1, id, env, names.submit, DeliverySubmission(implementation, report))
    requires Advances(s1, s2, id, env, names.giveBack, DeliveryReturn) && Advances(s2, s3, id, env, names.requeue, TaskRequeued)
    requires Advances(s3, s4, id, env, names.dispatch, TaskDispatched(args)) && id in s.world.ledger
    ensures RoundDone(s, s4, id, RoundTask(s.world.ledger[id], env.Now(), implementation, report, args), names)
  {
    hide After, Advances;
    var p1, p2, p3, p4 := DeliverySubmission(implementation, report), DeliveryReturn, TaskRequeued, TaskDispatched(args);
    Advanced(s, s1, id, env, names.submit, p1);
    Advanced(s1, s2, id, env, names.giveBack, p2);
    Advanced(s2, s3, id, env, names.requeue, p3);
    Advanced(s3, s4, id, env, names.dispatch, p4);
    OnlyThisTask(s, s1, id, env, names.submit, p1);
    OnlyThisTask(s1, s2, id, env, names.giveBack, p2);
    OnlyThisTask(s2, s3, id, env, names.requeue, p3);
    OnlyThisTask(s3, s4, id, env, names.dispatch, p4);
    LastUpdate(s.world.ledger, id, s1.world.ledger[id], s2.world.ledger[id]);
    LastUpdate(s.world.ledger, id, s2.world.ledger[id], s3.world.ledger[id]);
    LastUpdate(s.world.ledger, id, s3.world.ledger[id], s4.world.ledger[id]);
  }

  lemma LastUpdate(m: map<TaskId, Task>, id: TaskId, t: Task, u: Task)
    ensures m[id := t][id := u] == m[id := u]
  {
  }

  /** An advance of the task touches no other task, and no record but that of an acceptance. */
  lemma OnlyThisTask(s: System, s': System, id: TaskId, env: Env, e: EventId, p: Payload)
    requires Advances(s, s', id, env, e, p)
    ensures !p.DeliveryAcceptance? ==> s'.world.acceptances.Keys == s.world.acceptances.Keys
    ensures |s'.log| == |s.log| + 1
    ensures s'.world.ledger == s.world.ledger[id := After(s.world.ledger[id], p, env.Now())]
  {
    hide After;
  }

  /** So the commit submitted for one attempt is accepted for the next, which submitted nothing. */
  lemma StaleAccepted(s: System, id: TaskId, env: Env, names: Round, implementation: Commit, report: Commit,
                      args: DispatchArgs, e: EventId, f: EventId, g: EventId, blocker: Blocker, path: AcceptancePath,
                      review: ReviewArgs)
    requires Sound(s.world.approvals) && id in s.world.ledger && names.Fresh(s.world) && args.message !in s.world.outbox
    requires Redispatchable(s.world, id, s.world.ledger[id], env, args)
    requires e != f && e != g && f != g && blocker.attemptValid == Some(true)
    requires var s4 := AfterRound(s, id, env, names, implementation, report, args);
             && Sound(s4.world.approvals) && id in s4.world.ledger
             && Acceptable(s4.world, id, s4.world.ledger[id], env, path, implementation, review)
             && e !in s4.world.events && f !in s4.world.events && g !in s4.world.events
    ensures var s4 := AfterRound(s, id, env, names, implementation, report, args);
            var s5 := Taken(s4, id, env, e, TaskBlocked(blocker));
            var s6 := Taken(s5, id, env, f, BlockerResolved(ReviewReady));
            var s7 := Taken(s6, id, env, g, DeliveryAcceptance(implementation, Some(path), review));
      AcceptsUnsubmitted(s4, s5, s6, s7, id, implementation) && s4.world.ledger[id].attempt == Some(args.newAttempt)
  {
    hide AfterRound, Taken, Sound, Acceptable, Require, Unsubmitted;
    DeliverySurvives(s, id, env, names, implementation, report, args);
    AcceptedUnsubmitted(AfterRound(s, id, env, names, implementation, report, args), id, env, e, f, g, blocker, implementation,
                        path, review);
  }
}
