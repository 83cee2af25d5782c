/** The main results on runs of the control plane, from any ledger, with any crashes. */
module ControlPlaneTheorems {
  import opened Wrappers
  import opened Approvals
  import opened ApprovalRuns
  import opened Ledger
  import opened Events
  import opened EventReader
  import opened AcceptanceFiles
  import opened AcceptanceReading
  import opened AcceptanceRecords
  import opened Texts
  import opened Transition
  import opened History
  import opened ControlPlaneRuns
  import opened ControlPlaneSafety

  ghost predicate AllPossible(steps: seq<Step>) { forall step :: step in steps ==> Possible(step) }

  ghost function Reached(tasks: Tasks, steps: seq<Step>): System
    requires AllPossible(steps)
  {
    RunSteps(Initial(tasks), steps)
  }

  lemma ReachedInv(tasks: Tasks, steps: seq<Step>)
    requires AllPossible(steps)
    ensures Inv(tasks, Reached(tasks, steps))
  {
    InitialInv(tasks);
    RunKeepsInv(tasks, Initial(tasks), steps);
    hide Inv;
  }

  /** The parts of the invariant that the results below use. */
  lemma ReachedLog(tasks: Tasks, steps: seq<Step>)
    requires AllPossible(steps)
    ensures LegitLog(tasks, Reached(tasks, steps).log)
    ensures Reached(tasks, steps).world.ledger == LedgerAfter(tasks, Reached(tasks, steps).log)
    ensures AllDurable(Reached(tasks, steps).world, Reached(tasks, steps).log)
    ensures Sound(Reached(tasks, steps).world.approvals)
  {
    ReachedInv(tasks, steps);
    hide LegitLog, LedgerAfter, AllDurable, Sound, EventsGuarded, DistinctEvents, Reached;
  }

  // ---- Chains of durable events ------------------------------------------------------------------------------------

  lemma {:induction false} OfIsInLog(log: seq<Entry>, id: TaskId)
    ensures forall c :: c in Of(log, id) ==> c in log && c.Task() == id
    decreases |log|
  {
    if log != [] {
      OfIsInLog(log[..|log| - 1], id);
    }
  }

  /** In every reachable store, however many calls were cut off, each task's ledger state is the end of a linked chain of
      commits whose events, outbox messages and acceptance records are all on disk. */
  lemma LedgerIsBackedByEvidence(tasks: Tasks, steps: seq<Step>, id: TaskId)
    requires AllPossible(steps) && id in tasks
    ensures var s := Reached(tasks, steps);
      && s.world.ledger.Keys == tasks.Keys
      && Chain(tasks[id], Of(s.log, id)) && s.world.ledger[id] == End(tasks[id], Of(s.log, id))
      && forall c :: c in Of(s.log, id) ==> Durable(s.world, c)
  {
    ReachedLog(tasks, steps);
    var s := Reached(tasks, steps);
    LedgerIsChainEnd(tasks, s.log, id);
    OfIsInLog(s.log, id);
    hide Durable, GrantAlive, LegitLog, LedgerAfter, Of, Chain, End, Sound, Reached;
  }

  /** From fresh tasks: the attempt is the number of committed dispatches, the revision has risen by the committed
      rescopes, and accepted or terminal tasks hold no dispatch. */
  lemma CountersOfFresh(tasks: Tasks, steps: seq<Step>, id: TaskId)
    requires AllPossible(steps) && Fresh(tasks) && id in tasks
    ensures var s := Reached(tasks, steps);
      && id in s.world.ledger
      && s.world.ledger[id].Attempt() == Count(s.log, id, Dispatching)
      && s.world.ledger[id].revision == tasks[id].revision + Count(s.log, id, Rescoping)
      && Tidy(s.world.ledger[id])
  {
    ReachedLog(tasks, steps);
    CountersExact(tasks, Reached(tasks, steps).log, id);
    TidyForever(tasks, Reached(tasks, steps).log, id);
    hide Reached, LegitLog, LedgerAfter, AllDurable, Sound, Count;
  }

  /** Each attempt of a task is dispatched once, and closed at most once: accepted, returned or failed. */
  lemma AttemptSpentOnce(tasks: Tasks, steps: seq<Step>, i: nat, j: nat)
    requires AllPossible(steps) && i < j < |Reached(tasks, steps).log|
    requires var log := Reached(tasks, steps).log;
      && log[i].Task() == log[j].Task()
      && ((Closes(log[i]) && Closes(log[j])) || (log[i].event.kind.Dispatching? && log[j].event.kind.Dispatching?))
    ensures Reached(tasks, steps).log[i].event.attempt != Reached(tasks, steps).log[j].event.attempt
  {
    ReachedLog(tasks, steps);
    AttemptOnce(tasks, Reached(tasks, steps).log, i, j);
    hide Reached, LegitLog, LedgerAfter, AllDurable, Sound;
  }

  // ---- Approvals are spent once -----------------------------------------------------------------------------------

  lemma OneGrantPerApproval(w: World, c: Entry, d: Entry, t: Task, u: Task)
    requires Sound(w.approvals) && Durable(w, c) && Durable(w, d) && Legit(t, c) && Legit(u, d)
    requires c.grant.Some? && d.grant.Some? && c.grant.value.approvalId == d.grant.value.approvalId
    ensures c.grant == d.grant
  {
    hide CasHolds, After, WellNamed, RevokesHaveGrants, OneGrantEach;
    var e, f := c.grant.value.eventId, d.grant.value.eventId;
    assert w.approvals[e] == GrantRecord(c.grant.value) && w.approvals[f] == GrantRecord(d.grant.value);
    assert SameApproval(w.approvals[e], w.approvals[f]);
  }

  /** In any run, no two committed gated transitions spend the same approval. */
  lemma ApprovalSpentOnce(tasks: Tasks, steps: seq<Step>, i: nat, j: nat)
    requires AllPossible(steps) && i < j < |Reached(tasks, steps).log|
    requires IsGated(Reached(tasks, steps).log[i].Payload()) && IsGated(Reached(tasks, steps).log[j].Payload())
    ensures var log := Reached(tasks, steps).log;
      && log[i].grant.Some? && log[j].grant.Some?
      && log[i].grant.value.approvalId != log[j].grant.value.approvalId
  {
    var s := Reached(tasks, steps);
    ReachedLog(tasks, steps);
    PrefixLegit(tasks, s.log, i);
    PrefixLegit(tasks, s.log, j);
    GrantUsedOnce(tasks, s.log, i, j);
    hide Legit, Durable, GrantAlive, Sound, LegitLog, LedgerAfter, Reached;
    if s.log[i].grant.value.approvalId == s.log[j].grant.value.approvalId {
      OneGrantPerApproval(s.world, s.log[i], s.log[j], LedgerAfter(tasks, s.log[..i])[s.log[i].Task()],
                          LedgerAfter(tasks, s.log[..j])[s.log[j].Task()]);
    }
  }

  /** Every gated event on disk, committed or orphaned, carries exactly one approval guard, naming a stored grant of its
      scope, task, revision and attempt; at every commit that grant was neither expired nor revoked. */
  lemma GatedEventsAreApproved(tasks: Tasks, steps: seq<Step>)
    requires AllPossible(steps)
    ensures EventsGuarded(Reached(tasks, steps).world)
    ensures forall c :: c in Reached(tasks, steps).log ==> GrantAlive(c)
  {
    ReachedInv(tasks, steps);
    hide Sound, EventsGuarded, GrantAlive, Durable, LegitLog, LedgerAfter, DistinctEvents, Reached;
  }

  /** Once the gate has found an approval revoked or expired, no transition that needs it commits any more: after any
      further run, at any later time, the call is refused without a write. */
  lemma DeadApprovalNeverSpent(start: Tasks, s: System, request: CheckRequest, git: Git, now: Instant,
                               steps: seq<Step>, r: Request, env: Env)
    requires Inv(start, s) && AllPossible(steps) && Constructible(r) && IsGated(r.payload) && now <= env.now
    requires IsDead(Check(s.world.approvals, git, request, now))
    requires var w := RunSteps(s, steps).world;
      && r.cas.taskId in w.ledger && ScopeOf(r.payload) == request.scope
      && SubjectOf(w, w.ledger[r.cas.taskId], r) == Success(request.subject)
    ensures !Prepare(RunSteps(s, steps).world, r, env).Write?
  {
    hide Inv, Sound, Check, SubjectOf, Constructible, Possible, IsGated, Prepare;
    RunKeepsInv(start, s, steps);
    InvSound(start, s);
    InvSound(start, RunSteps(s, steps));
    var w := RunSteps(s, steps).world;
    DeadInLaterStore(s.world.approvals, git, request, now,
                     w.approvals, env.git, CheckRequest(request.scope, request.subject, env.git.head), env.now);
    RefusedWithoutPass(w, r, env, request.subject);
    hide RunSteps;
  }

  lemma RefusedWithoutPass(w: World, r: Request, env: Env, subject: Subject)
    requires Constructible(r) && IsGated(r.payload) && r.cas.taskId in w.ledger
    requires SubjectOf(w, w.ledger[r.cas.taskId], r) == Success(subject)
    requires !IsPassed(Check(w.approvals, env.git, CheckRequest(ScopeOf(r.payload), subject, env.git.head), env.now))
    ensures !Prepare(w, r, env).Write?
  {
    hide Prepare, PlanFresh, Check, SubjectOf, Constructible, CasHolds, EventOf, OutboxOf, After, FreshAcceptance, Orphans,
      PathFits, IsGated;
    var t := w.ledger[r.cas.taskId];
    assert GrantFor(w, t, r, env).Failure?;
    hide GrantFor;
    if Prepare(w, r, env).Write? {
      WriteIsFresh(w, r, env);
      FreshMeans(w, t, r, env);
    }
  }

  // ---- Integration ------------------------------------------------------------------------------------------------

  /** No line of the record's lists claims anything but this text for the entry. */
  predicate ClaimsNothingElse(a: Acceptance, h: Heading, s: string) {
    ClaimedEntry(a, h).None? || ClaimedEntry(a, h) == Some(Words(s))
  }

  /** From the acceptance and the integration of one task, what the integration's approval is for. */
  lemma SameAcceptance(w: World, t: Task, c: Entry, u: Task, d: Entry)
    requires Legit(t, c) && Legit(u, d) && Durable(w, c) && Durable(w, d) && d.before == c.after
    requires c.Payload().DeliveryAcceptance? && d.Payload().ChangeIntegrated?
    ensures d.grant.Some? && c.acceptance.Some? && d.reviewed == c.acceptance
    ensures IntegrationFits(d.grant.value.subject, c.acceptance.value, d.Payload())
    ensures Some(c.acceptance.value.reviewedDispatch) == c.event.dispatchId
    ensures c.acceptance.value.acceptedCommit == c.Payload().commit
    ensures d.event.revision == c.event.revision
  {
    hide IntegrationFits, Sound, Extends, CasHolds, EventOf;
    assert c.after.acceptancePath == c.Payload().path;
    EventRevisions(t, c);
    EventRevisions(u, d);
    hide After;
  }

  lemma EventRevisions(t: Task, c: Entry)
    requires Legit(t, c)
    ensures c.event.revision == t.revision
    ensures c.Payload().DeliveryAcceptance? ==> c.after.revision == t.revision
  {
    hide IntegrationFits, AcceptanceFits, GrantFits;
  }

  /** What is approved and integrated is what was accepted exactly if the lists of the record claim nothing else. */
  lemma ReadsAsAccepted(s: Subject, a: Acceptance, p: Payload)
    requires p.ChangeIntegrated? && IntegrationFits(s, a, p) && SpelledRecord(a)
    ensures s.acceptedCommit == Some(a.acceptedCommit) <==> ClaimsNothingElse(a, AcceptedHeading, a.acceptedCommit.text)
    ensures s.dispatchId == a.reviewedDispatch <==> ClaimsNothingElse(a, DispatchHeading, a.reviewedDispatch.text)
  {
    hide ReadRecord, ClaimedEntry, SpelledRecord, OwnEntry, EntryKept, IsDigits;
    CommitExactly(a);
    DispatchExactly(a);
    OwnWords(a);
  }

  /** In any run from fresh tasks, an integration follows the acceptance of the very same attempt and revision. Its approval
      is for the dispatch and the commit that the record of that acceptance reads to name, and it integrates that commit
      unless it comes with evidence of equivalence. These are the accepted ones exactly if no line of the record's
      references or risks claims others. */
  lemma IntegratesWhatWasAccepted(tasks: Tasks, steps: seq<Step>, j: nat) returns (i: nat)
    requires AllPossible(steps) && Fresh(tasks) && j < |Reached(tasks, steps).log|
    requires Reached(tasks, steps).log[j].Payload().ChangeIntegrated?
    ensures i < j && FollowsAcceptance(Reached(tasks, steps).log[i], Reached(tasks, steps).log[j])
  {
    hide Reached, Legit, Durable, GrantAlive, Sound, LegitLog, LedgerAfter, FollowsAcceptance;
    var s := Reached(tasks, steps);
    ReachedLog(tasks, steps);
    i := IntegrationAfterAcceptance(tasks, s.log, j);
    PrefixLegit(tasks, s.log, i);
    PrefixLegit(tasks, s.log, j);
    AcceptanceFollowed(s.world, LedgerAfter(tasks, s.log[..i])[s.log[i].Task()], s.log[i],
                       LedgerAfter(tasks, s.log[..j])[s.log[j].Task()], s.log[j]);
  }

  lemma AcceptanceFollowed(w: World, t: Task, c: Entry, u: Task, d: Entry)
    requires Legit(t, c) && Legit(u, d) && Durable(w, c) && Durable(w, d) && d.before == c.after
    requires c.Payload().DeliveryAcceptance? && d.Payload().ChangeIntegrated? && c.Task() == d.Task()
    requires c.event.attempt == d.event.attempt
    ensures FollowsAcceptance(c, d)
  {
    hide Legit, Durable, IntegrationFits, IntegratesAccepted, SpelledRecord;
    SameAcceptance(w, t, c, u, d);
    if SpelledRecord(c.acceptance.value) { AcceptedIsIntegrated(c, d); }
  }

  /** An integration of what an acceptance of the same attempt and revision accepted, as its record reads. */
  predicate FollowsAcceptance(c: Entry, d: Entry) {
    && c.Task() == d.Task() && c.Payload().DeliveryAcceptance? && d.Payload().ChangeIntegrated?
    && c.event.attempt == d.event.attempt && c.event.revision == d.event.revision
    && d.grant.Some? && c.acceptance.Some?
    && IntegrationFits(d.grant.value.subject, c.acceptance.value, d.Payload())
    && (SpelledRecord(c.acceptance.value) ==> IntegratesAccepted(c, d))
  }

  /** The approval of an integration is for the accepted commit and dispatch exactly if the record claims no others; then
      the commit integrated is the accepted one or shown equivalent. */
  predicate IntegratesAccepted(c: Entry, d: Entry)
    requires c.Payload().DeliveryAcceptance? && d.Payload().ChangeIntegrated? && d.grant.Some? && c.acceptance.Some?
  {
    var a, s := c.acceptance.value, d.grant.value.subject;
    && (s.acceptedCommit == Some(c.Payload().commit) <==> ClaimsNothingElse(a, AcceptedHeading, c.Payload().commit.text))
    && (Some(s.dispatchId) == c.event.dispatchId <==> ClaimsNothingElse(a, DispatchHeading, a.reviewedDispatch.text))
    && (ClaimsNothingElse(a, AcceptedHeading, c.Payload().commit.text) ==>
          || d.Payload().integrated == c.Payload().commit
          || (d.Payload().equivalenceMethod.Some? && d.Payload().equivalenceEvidence.Some?))
  }

  lemma AcceptedIsIntegrated(c: Entry, d: Entry)
    requires c.Payload().DeliveryAcceptance? && d.Payload().ChangeIntegrated? && d.grant.Some? && c.acceptance.Some?
    requires IntegrationFits(d.grant.value.subject, c.acceptance.value, d.Payload()) && SpelledRecord(c.acceptance.value)
    requires Some(c.acceptance.value.reviewedDispatch) == c.event.dispatchId
    requires c.acceptance.value.acceptedCommit == c.Payload().commit
    ensures IntegratesAccepted(c, d)
  {
    hide ReadRecord, ClaimsNothingElse, SpelledRecord;
    ReadsAsAccepted(d.grant.value.subject, c.acceptance.value, d.Payload());
  }

  // ---- Fencing ----------------------------------------------------------------------------------------------------

  /** What the caller of a transition believes about the task and the repository. */
  predicate Outdated(t: Task, r: Request, env: Env) {
    || r.cas.snapshot != env.git.head || r.cas.revision != t.revision || r.cas.state != t.state || IsTerminal(t.state)
    || (NeedsDispatchCas(r.payload) && r.dispatchCas.Some?
        && (t.DispatchId() != Some(r.dispatchCas.value.dispatchId) || t.attempt != Some(r.dispatchCas.value.attempt)))
    || (r.payload.TaskDispatched? && (t.dispatch.Some? || r.payload.args.newAttempt != t.Attempt() + 1))
  }

  /** A caller whose belief about head, revision, state, dispatch or attempt is outdated changes nothing, interrupted or
      not; nor does anyone change a task that is terminal. */
  lemma OutdatedChangesNothing(w: World, r: Request, env: Env, budget: nat)
    requires Constructible(r) && r.cas.taskId in w.ledger && Outdated(w.ledger[r.cas.taskId], r, env)
    ensures Execute(w, r, env, budget).0 == w
  {
    if Prepare(w, r, env).Write? {
      WriteIsFresh(w, r, env);
      FreshMeans(w, w.ledger[r.cas.taskId], r, env);
    }
    hide Prepare, PlanFresh, FreshAcceptance, GrantFor, EventOf, OutboxOf, After, Orphans, PathFits;
  }

  // ---- Runs without crashes ---------------------------------------------------------------------------------------

  /** Every call gets to write all its files; there are at most six. */
  predicate Unbroken(step: Step) { step.Transit? ==> step.budget >= 6 }

  /** The events and messages on disk are exactly those of the committed transitions. */
  predicate NothingOrphaned(s: System) {
    && (forall e :: e in s.world.events ==> exists i :: 0 <= i < |s.log| && s.log[i].event == s.world.events[e])
    && (forall m :: m in s.world.outbox ==> exists i :: 0 <= i < |s.log| && s.log[i].outbox == Some(s.world.outbox[m]))
  }

  lemma UnbrokenNext(s: System, step: Step)
    requires Possible(step) && Unbroken(step) && Sound(s.world.approvals) && NothingOrphaned(s)
    ensures NothingOrphaned(Next(s, step))
  {
    var s' := Next(s, step);
    if step.Transit? {
      var plan := Prepare(s.world, step.r, step.env);
      ExecuteLands(s.world, step.r, step.env, step.budget);
      if plan.Write? {
        WriteIsFresh(s.world, step.r, step.env);
        CommittedIsLogged(s, step.r, step.env, plan);
        hide Prepare, Execute, Sound, NothingOrphaned, Landed, Writes;
      }
    }
    hide Prepare, Execute, Sound;
  }

  lemma CommittedIsLogged(s: System, r: Request, env: Env, plan: Plan)
    requires NothingOrphaned(s) && plan.Write? && r.cas.taskId in s.world.ledger
    ensures NothingOrphaned(System(Landed(s.world, r, plan, |Writes(r, plan)|), s.log + [EntryOf(s.world, r, env, plan)]))
  {
    var c := EntryOf(s.world, r, env, plan);
    var log := s.log + [c];
    assert log[|s.log|] == c && forall i :: 0 <= i < |s.log| ==> log[i] == s.log[i];
  }

  lemma {:induction false} UnbrokenRun(start: Tasks, s: System, steps: seq<Step>)
    requires AllPossible(steps) && (forall step :: step in steps ==> Unbroken(step))
    requires Inv(start, s) && NothingOrphaned(s)
    ensures NothingOrphaned(RunSteps(s, steps))
    decreases |steps|
  {
    hide Inv, NothingOrphaned, Next, Possible;
    if steps != [] {
      InvSound(start, s);
      NextKeepsInv(start, s, steps[0]);
      UnbrokenNext(s, steps[0]);
      UnbrokenRun(start, Next(s, steps[0]), steps[1..]);
    }
  }

  /** Without crashes, no evidence on disk is orphaned. */
  lemma NoOrphansWithoutCrashes(tasks: Tasks, steps: seq<Step>)
    requires AllPossible(steps) && forall step :: step in steps ==> Unbroken(step)
    ensures NothingOrphaned(Reached(tasks, steps))
  {
    InitialInv(tasks);
    UnbrokenRun(tasks, Initial(tasks), steps);
    hide Inv, RunSteps;
  }
}
