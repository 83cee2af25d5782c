/** Repeating a committed call, and what a crash in between can make of it. */
module Replay {
  import opened Wrappers
  import opened Approvals
  import opened ApprovalRuns
  import opened Ledger
  import opened Events
  import opened EventReader
  import opened EventGuards
  import opened EventReading
  import opened EventRecovery
  import opened Texts
  import opened AcceptanceFiles
  import opened Transition
  import opened History
  import opened ControlPlaneRuns
  import opened ControlPlaneSafety
  import opened ControlPlaneTheorems

  /** The same second, lease epoch, holder and task cards; Git may have moved on. */
  predicate SameMoment(env: Env, env': Env) {
    env'.Now() == env.Now() && env'.leaseEpoch == env.leaseEpoch && env'.holder == env.holder && env'.cards == env.cards
  }

  /** The approval guard of an event is recovered from its text as it was. */
  predicate GivesBack(e: Event) {
    HasApproval(e) && RecoverGuard(EventText(e), e.guards[|e.guards| - 1].scope) == GuardTexts(e.guards[|e.guards| - 1])
  }

  /** Whether an immediate repetition of a call that committed the event is recognised: the event must not have named a
      dispatch that the transition itself cleared, and the text of a gated event must give back its approval guard. */
  predicate Repeatable(t: Task, r: Request, committed: Event) {
    && (IsGated(r.payload) ==> GivesBack(committed))
    && (ClearsDispatch(r.payload) && !NeedsDispatchCas(r.payload) ==> t.dispatch.None?)
  }

  /** Rebuilding the event from the task the transition left yields the same event, up to a cleared dispatch. */
  lemma RebuiltEvent(t: Task, r: Request, env: Env, env': Env, guards: seq<Guard>)
    requires Constructible(r) && SameMoment(env, env')
    ensures EventOf(After(t, r.payload, env.Now()), r, env', guards) == EventOf(t, r, env, guards)
       <==> (ClearsDispatch(r.payload) && !NeedsDispatchCas(r.payload) ==> t.dispatch.None?)
  {
    var t' := After(t, r.payload, env.Now());
    assert OutboxOf(r, env') == OutboxOf(r, env);
    assert ExtraOf(t', r, env') == ExtraOf(t, r, env);
    assert EventAttempt(t', r.payload) == EventAttempt(t, r.payload);
    hide ExtraOf, EventAttempt, SameMoment, Constructible;
  }

  lemma RebuiltAcceptance(t: Task, r: Request, env: Env, env': Env)
    requires Constructible(r) && SameMoment(env, env') && PathFits(t, r) && FreshAcceptance(t, r, env).Success?
    ensures var t' := After(t, r.payload, env.Now());
      && PathFits(t', r) && ReplayAcceptance(t', r, env') == FreshAcceptance(t, r, env)
  {
    hide Proofread;
  }

  lemma StampedNow(t: Task, p: Payload, now: Instant)
    ensures UpdatedAt in After(t, p, now).stamps && After(t, p, now).stamps[UpdatedAt] == now
    ensures After(t, p, now).state == TargetOf(p)
  {
  }

  /** A replay against complete evidence comes down to the rebuilt event. */
  lemma CompareComplete(w: World, t: Task, r: Request, env: Env, guards: seq<Guard>, acceptance: Option<Acceptance>)
    requires Constructible(r) && PathFits(t, r) && r.eventId in w.events && SameCompanions(w, r, env, acceptance)
    requires t.state == TargetOf(r.payload) && ReplayAcceptance(t, r, env) == Success(acceptance) && UpdatedAt in t.stamps
    ensures Compare(w, t, r, env, guards) ==
      if EventOf(t, r, env, guards) == w.events[r.eventId] then Plan.Replay(OutcomeOf(r, t.stamps[UpdatedAt]))
      else Refuse(DuplicateEvidence)
  {
    hide EventOf, ReplayAcceptance, Constructible, TargetOf, OutboxOf;
  }

  /** Why a gated replay is refused before anything is compared. */
  function Refusal(e: Event): Error
    requires HasApproval(e)
  {
    match RecoverGuard(EventText(e), e.guards[|e.guards| - 1].scope)
    case Unreadable => SchemaError
    case Broken => Untyped
    case Recovered(_, _, _) => DuplicateEvidence
  }

  /** A gated replay against complete evidence comes down to the text of the guard and to the rebuilt event. */
  lemma ReplayOfComplete(w: World, t: Task, r: Request, env: Env, approval: seq<Guard>, acceptance: Option<Acceptance>)
    requires Constructible(r) && PathFits(t, r) && r.eventId in w.events && SameCompanions(w, r, env, acceptance)
    requires w.events[r.eventId].guards == r.guards + approval
    requires if IsGated(r.payload) then |approval| == 1 && approval[0].ApprovalGuard? && approval[0].scope == ScopeOf(r.payload)
             else approval == []
    requires t.state == TargetOf(r.payload) && ReplayAcceptance(t, r, env) == Success(acceptance)
    requires UpdatedAt in t.stamps
    ensures IsGated(r.payload) ==> HasApproval(w.events[r.eventId])
    ensures PlanReplay(w, t, r, env) ==
      if IsGated(r.payload) && !GivesBack(w.events[r.eventId]) then Refuse(Refusal(w.events[r.eventId]))
      else if EventOf(t, r, env, w.events[r.eventId].guards) == w.events[r.eventId]
      then Plan.Replay(OutcomeOf(r, t.stamps[UpdatedAt]))
      else Refuse(DuplicateEvidence)
  {
    hide EventOf, ReplayAcceptance, Constructible, TargetOf, OutboxOf, RecoverGuard, EventText, GuardTexts, Compare, SameCompanions;
    CompareComplete(w, t, r, env, w.events[r.eventId].guards, acceptance);
    var existing, n := w.events[r.eventId].guards, |r.guards|;
    if IsGated(r.payload) {
      assert existing[n] == approval[0] && existing[..n] == r.guards && |existing| == n + 1;
      GuardTextsAre(existing[n]);
    } else {
      assert r.guards + approval == r.guards;
    }
  }

  lemma GuardTextsAre(g: Guard)
    requires g.ApprovalGuard?
    ensures GuardTexts(g).Recovered?
  {
  }

  predicate SameCompanions(w: World, r: Request, env: Env, acceptance: Option<Acceptance>) {
    && (r.payload.TaskDispatched? ==>
          r.payload.args.message in w.outbox && OutboxOf(r, env) == Some(w.outbox[r.payload.args.message]))
    && (r.payload.DeliveryAcceptance? ==>
          r.payload.path.Some? && r.payload.path.value in w.acceptances
          && acceptance == Some(w.acceptances[r.payload.path.value]))
  }

  lemma LandedCompanions(w: World, t: Task, r: Request, env: Env, env': Env, plan: Plan)
    requires Constructible(r) && PathFits(t, r) && plan.Write? && SameMoment(env, env')
    requires plan.outbox == OutboxOf(r, env) && FreshAcceptance(t, r, env) == Success(plan.acceptance)
    ensures SameCompanions(Landed(w, r, plan, |Writes(r, plan)|), r, env', plan.acceptance)
  {
    hide RecordText, Proofread;
  }

  /** Replaying on the stores a committed call leaves. */
  lemma ReplayPlanned(w: World, r: Request, env: Env, env': Env)
    requires Constructible(r) && Sound(w.approvals) && Prepare(w, r, env).Write? && SameMoment(env, env')
    ensures r.cas.taskId in w.ledger
    ensures
      var plan := Prepare(w, r, env);
      var w' := Landed(w, r, plan, |Writes(r, plan)|);
      && (IsGated(r.payload) ==> HasApproval(plan.event))
      && Prepare(w', r, env') ==
          if Repeatable(w.ledger[r.cas.taskId], r, plan.event) then Plan.Replay(OutcomeOf(r, env.Now()))
          else Refuse(if IsGated(r.payload) && !GivesBack(plan.event) then Refusal(plan.event) else DuplicateEvidence)
  {
    hide Prepare, PlanReplay, PlanFresh, FreshAcceptance, ReplayAcceptance, EventOf, After, CasHolds, Sound, GrantFor,
      SameMoment, Landed, Constructible, PathFits, GivesBack, Refusal, SameCompanions, HasApproval;
    var plan := Prepare(w, r, env);
    var w' := Landed(w, r, plan, |Writes(r, plan)|);
    WriteIsFresh(w, r, env);
    var t := w.ledger[r.cas.taskId];
    FreshMeans(w, t, r, env);
    GrantMeans(w, t, r, env);
    var t' := After(t, r.payload, env.Now());
    var approval := ApprovalGuards(r, env, plan.grant);
    RebuiltEvent(t, r, env, env', r.guards + approval);
    RebuiltAcceptance(t, r, env, env');
    StampedNow(t, r.payload, env.Now());
    LandedCompanions(w, t, r, env, env', plan);
    EventGuardsAre(t, r, env, r.guards + approval);
    OwnEvent(w, t, r, env, plan);
    ReplayOfComplete(w', t', r, env', approval, plan.acceptance);
    NoApprovalGuard(r);
    ExistingIsReplay(w', t', r, env');
    hide Writes, TargetOf, OutcomeOf;
  }

  lemma EventGuardsAre(t: Task, r: Request, env: Env, guards: seq<Guard>)
    ensures EventOf(t, r, env, guards).guards == guards
  {
  }

  lemma ExistingIsReplay(w: World, t: Task, r: Request, env: Env)
    requires Constructible(r) && r.cas.taskId in w.ledger && w.ledger[r.cas.taskId] == t && PathFits(t, r) && r.eventId in w.events
    requires !exists i :: 0 <= i < |r.guards| && r.guards[i].ApprovalGuard?
    ensures Prepare(w, r, env) == PlanReplay(w, t, r, env)
  {
    hide PlanReplay, PlanFresh, PathFits, Constructible;
  }

  lemma OwnEvent(w: World, t: Task, r: Request, env: Env, plan: Plan)
    requires plan.Write? && plan.event == EventOf(t, r, env, plan.event.guards)
    ensures var w' := Landed(w, r, plan, |Writes(r, plan)|);
      && r.eventId in w'.events && w'.events[r.eventId] == plan.event
      && r.cas.taskId in w'.ledger && w'.ledger[r.cas.taskId] == plan.task
  {
  }

  lemma NoApprovalGuard(r: Request)
    ensures (exists i :: 0 <= i < |r.guards| && r.guards[i].ApprovalGuard?) <==> exists g :: g in r.guards && g.ApprovalGuard?
  {
  }

  /** Immediately repeating a call that committed writes nothing, and returns the same answer if and only if the call is
      repeatable; otherwise it is refused. */
  lemma RepeatedCall(w: World, r: Request, env: Env, budget: nat, env': Env, budget': nat)
    requires Constructible(r) && Sound(w.approvals) && SameMoment(env, env')
    requires Prepare(w, r, env).Write? && Execute(w, r, env, budget).1.Success?
    ensures r.cas.taskId in w.ledger
    ensures var (w', answer) := Execute(w, r, env, budget);
            var (w'', again) := Execute(w', r, env', budget');
            && w'' == w' && (again == answer <==> Repeatable(w.ledger[r.cas.taskId], r, Prepare(w, r, env).event))
            && (again.Success? ==> again == answer)
  {
    ExecuteLands(w, r, env, budget);
    ReplayPlanned(w, r, env, env');
    hide Prepare, Sound, Landed, SameMoment, Constructible, Writes, PutAll, Repeatable, GivesBack, Refusal, HasApproval;
  }

  /** Requests bound to a dispatch and not gated are always repeatable; a request that clears an unbound dispatch is
      repeatable only if there was none to clear. */
  lemma WhoIsRepeatable(t: Task, r: Request, e: Event)
    ensures NeedsDispatchCas(r.payload) && !IsGated(r.payload) ==> Repeatable(t, r, e)
    ensures IsGated(r.payload) ==> (Repeatable(t, r, e) <==> GivesBack(e))
    ensures r.payload.TaskCancelled? || r.payload.TaskSuperseded? || r.payload.BlockerRescoped? ==>
              (Repeatable(t, r, e) <==> t.dispatch.None?)
  {
    hide GivesBack;
  }

  /** A call is answered from an existing event only if that event, and the message or acceptance record that belongs to
      it, say exactly what the call would write; anything else under the same event id is a conflict. */
  lemma ReplayMatches(w: World, r: Request, env: Env)
    requires Constructible(r) && Prepare(w, r, env).Replay?
    ensures r.eventId in w.events && r.cas.taskId in w.ledger
    ensures var e := w.events[r.eventId];
      && e.id == r.eventId && e.kind == KindOf(r.payload) && e.taskId == r.cas.taskId && e.revision == r.cas.revision
      && e.fromState == r.cas.state && e.toState == TargetOf(r.payload) && e.occurredAt == env.Now()
      && e.leaseEpoch == env.leaseEpoch && e.source == r.source && e.evidenceRefs == r.evidenceRefs
      && w.ledger[r.cas.taskId].state == e.toState
      && (r.payload.TaskDispatched? ==>
            r.payload.args.message in w.outbox && Some(w.outbox[r.payload.args.message]) == OutboxOf(r, env)
            && e.extra == Digest(w.outbox[r.payload.args.message]))
  {
    hide PlanReplay, PlanFresh, PathFits, Constructible;
    ReplayHasEvent(w, r, env);
    var t := w.ledger[r.cas.taskId];
    assert PathFits(t, r) && PlanReplay(w, t, r, env).Replay?;
    hide Prepare;
    ReplayComparesEqual(w, t, r, env);
  }

  lemma ReplayComparesEqual(w: World, t: Task, r: Request, env: Env)
    requires Constructible(r) && PathFits(t, r) && r.eventId in w.events && PlanReplay(w, t, r, env).Replay?
    ensures var e := w.events[r.eventId];
      && e.id == r.eventId && e.kind == KindOf(r.payload) && e.taskId == r.cas.taskId && e.revision == r.cas.revision
      && e.fromState == r.cas.state && e.toState == TargetOf(r.payload) && e.occurredAt == env.Now()
      && e.leaseEpoch == env.leaseEpoch && e.source == r.source && e.evidenceRefs == r.evidenceRefs
      && t.state == e.toState
      && (r.payload.TaskDispatched? ==>
            r.payload.args.message in w.outbox && Some(w.outbox[r.payload.args.message]) == OutboxOf(r, env)
            && e.extra == Digest(w.outbox[r.payload.args.message]))
  {
    hide ReplayAcceptance, RecoverGuard, EventText, Restored, Constructible;
  }

  // ---- What a crash can make of it --------------------------------------------------------------------------------

  function Specify(id: TaskId, t: Task, env: Env, eventId: EventId): Request {
    Ledger.Request(Cas(id, t.revision, t.state, env.git.head), None, eventId, TaskSpecified, None, [], [])
  }

  /** An answer of success does not mean that the transition committed: after a call cut off between its event and the
      ledger, and another call that brings the task to the same state, repeating the first one succeeds. */
  lemma SuccessWithoutCommit(s: System, id: TaskId, env: Env, e: EventId, f: EventId)
    requires Sound(s.world.approvals) && id in s.world.ledger && e != f && e !in s.world.events && f !in s.world.events
    requires var t := s.world.ledger[id]; t.state.Draft? && t.revision >= 1
    ensures var t := s.world.ledger[id];
            var r, q := Specify(id, t, env, e), Specify(id, t, env, f);
            var cut := Next(s, Transit(r, env, 1));
            var done := Next(cut, Transit(q, env, 6));
            && Execute(s.world, r, env, 1).1 == Failure(WriteError)
            && |done.log| == |s.log| + 1 && done.log[|s.log|].event.id == f
            && Execute(done.world, r, env, 6) == (done.world, Success(OutcomeOf(r, env.Now())))
  {
    hide PlanFresh, Sound, RecoverGuard, EventText, GrantFor, Orphans;
    var w, t := s.world, s.world.ledger[id];
    var r, q := Specify(id, t, env, e), Specify(id, t, env, f);
    var plan := SpecifyPlan(w, id, env, e);
    ExecuteLands(w, r, env, 1);
    var w1 := Landed(w, r, plan, 1);
    var plan1 := SpecifyPlan(w1, id, env, f);
    ExecuteLands(w1, q, env, 6);
    var w2 := Landed(w1, q, plan1, 4);
    var t' := After(t, TaskSpecified, env.Now());
    assert w2.ledger[id] == t' && w2.events[e] == plan.event;
    assert t'.state.Ready? && t'.DispatchId() == t.DispatchId() && t'.attempt == t.attempt;
    assert PlanReplay(w2, t', r, env) == Plan.Replay(OutcomeOf(r, env.Now())) by {
      StampedNow(t, TaskSpecified, env.Now());
    }
    hide PlanReplay, After;
  }

  lemma SpecifyPlan(w: World, id: TaskId, env: Env, e: EventId) returns (plan: Plan)
    requires id in w.ledger && e !in w.events && w.ledger[id].state.Draft? && w.ledger[id].revision >= 1
    ensures var t, r := w.ledger[id], Specify(id, w.ledger[id], env, e);
      && plan == Prepare(w, r, env)
      && plan == Plan.Write(EventOf(t, r, env, []), None, None, After(t, TaskSpecified, env.Now()), None)
      && |Writes(r, plan)| == 4
  {
    var r := Specify(id, w.ledger[id], env, e);
    plan := Prepare(w, r, env);
  }

  /** In runs without crashes it does: a call answered with success has its event in the log. */
  lemma SuccessMeansCommitWithoutCrashes(tasks: Tasks, steps: seq<Step>, r: Request, env: Env)
    requires AllPossible(steps) && (forall step :: step in steps ==> Unbroken(step)) && Constructible(r)
    requires Execute(Reached(tasks, steps).world, r, env, 6).1.Success?
    ensures exists c :: c in Next(Reached(tasks, steps), Transit(r, env, 6)).log && c.event.id == r.eventId
  {
    var s := Reached(tasks, steps);
    NoOrphansWithoutCrashes(tasks, steps);
    ReachedInv(tasks, steps);
    SuccessIsLogged(tasks, s, r, env);
    hide Reached, Inv, NothingOrphaned, Next;
  }

  lemma SuccessIsLogged(start: Tasks, s: System, r: Request, env: Env)
    requires Inv(start, s) && NothingOrphaned(s) && Constructible(r) && Execute(s.world, r, env, 6).1.Success?
    ensures exists c :: c in Next(s, Transit(r, env, 6)).log && c.event.id == r.eventId
  {
    hide Inv, Prepare, Sound, Legit, GrantAlive, PutAll, Constructible;
    var plan := Prepare(s.world, r, env);
    var s' := Next(s, Transit(r, env, 6));
    InvEvents(start, s);
    InvSound(start, s);
    if plan.Write? {
      WriteIsLegit(s.world, r, env);
      var c := EntryOf(s.world, r, env, plan);
      assert s'.log[|s.log|] == c;
      WriteNamesEvent(s.world, r, env);
    } else {
      ReplayHasEvent(s.world, r, env);
      var i :| 0 <= i < |s.log| && s.log[i].event == s.world.events[r.eventId];
      assert s'.log == s.log && s.log[i] in s'.log;
    }
  }

  lemma WriteNamesEvent(w: World, r: Request, env: Env)
    requires Constructible(r) && Prepare(w, r, env).Write?
    ensures Prepare(w, r, env).event.id == r.eventId
  {
    hide Prepare, PlanFresh, EventOf, Constructible, PathFits;
    WriteIsFresh(w, r, env);
    var t := w.ledger[r.cas.taskId];
    FreshMeans(w, t, r, env);
    KindAndIdOf(t, r, env, Prepare(w, r, env).event.guards);
    KindAndIdOf(t, r, env, r.guards + ApprovalGuards(r, env, Prepare(w, r, env).grant));
  }

  lemma InvEvents(start: Tasks, s: System)
    requires Inv(start, s)
    ensures forall e :: e in s.world.events ==> s.world.events[e].id == e
  {
    hide Sound, LegitLog, LedgerAfter, AllDurable, DistinctEvents, Guarded;
  }

  lemma ReplayHasEvent(w: World, r: Request, env: Env)
    requires Constructible(r) && Prepare(w, r, env).Replay?
    ensures r.eventId in w.events
  {
    hide PlanReplay, FreshAcceptance, GrantFor, EventOf, After, CasHolds, PathFits, Constructible;
  }

  function Renamed(r: Request, e: EventId, m: MessageId): Request
    requires r.payload.TaskDispatched?
  {
    r.(eventId := e, payload := r.payload.(args := r.payload.args.(message := m)))
  }

  /** Keys and approvals are unique among commits only: a dispatch cut off before the ledger and issued again under new
      names leaves two messages with one key, and two events with one approval. */
  lemma OrphanSharesKeyAndApproval(w: World, r: Request, env: Env, e: EventId, m: MessageId)
    requires Constructible(r) && Sound(w.approvals) && Prepare(w, r, env).Write? && r.payload.TaskDispatched?
    requires e !in w.events && e != r.eventId && m !in w.outbox && m != r.payload.args.message
    ensures Constructible(Renamed(r, e, m))
    ensures var (w', answer) := Execute(Execute(w, r, env, 2).0, Renamed(r, e, m), env, 6);
      && answer.Success?
      && m in w'.outbox && r.payload.args.message in w'.outbox
      && w'.outbox[m].key == w'.outbox[r.payload.args.message].key
      && e in w'.events && r.eventId in w'.events && w'.events[e].guards == w'.events[r.eventId].guards
  {
    RenamedConstructible(r, e, m);
    hide Prepare, PlanFresh, CasHolds, GrantFor, After, Sound, PutAll, EventOf, Constructible, FreshAcceptance, Orphans;
    var q := Renamed(r, e, m);
    var plan := Prepare(w, r, env);
    WriteIsFresh(w, r, env);
    var t := w.ledger[r.cas.taskId];
    FreshMeans(w, t, r, env);
    ExecuteLands(w, r, env, 2);
    var w1 := Landed(w, r, plan, 2);
    assert plan.event.id == r.eventId by { KindAndIdOf(t, r, env, plan.event.guards); }
    RenamedPlan(w, w1, t, r, env, q);
    ExecuteLands(w1, q, env, 6);
    hide Execute;
    BothLanded(w, r, plan, w1, q, Prepare(w1, q, env));
  }

  /** Where the first call gets two files written and the second all of its own. */
  lemma BothLanded(w: World, r: Request, plan: Plan, w1: World, q: Request, again: Plan)
    requires plan.Write? && again.Write? && plan.outbox.Some? && again.outbox.Some? && w1 == Landed(w, r, plan, 2)
    requires plan.event.id != again.event.id && plan.outbox.value.message != again.outbox.value.message
    ensures var w' := Landed(w1, q, again, |Writes(q, again)|);
      && again.outbox.value.message in w'.outbox && plan.outbox.value.message in w'.outbox
      && w'.outbox[again.outbox.value.message] == again.outbox.value && w'.outbox[plan.outbox.value.message] == plan.outbox.value
      && again.event.id in w'.events && plan.event.id in w'.events
      && w'.events[again.event.id] == again.event && w'.events[plan.event.id] == plan.event
  {
  }

  lemma RenamedConstructible(r: Request, e: EventId, m: MessageId)
    requires Constructible(r) && r.payload.TaskDispatched?
    ensures Constructible(Renamed(r, e, m))
  {
  }

  lemma KindAndIdOf(t: Task, r: Request, env: Env, guards: seq<Guard>)
    ensures EventOf(t, r, env, guards).id == r.eventId && EventOf(t, r, env, guards).guards == guards
  {
  }

  lemma RenamedPlan(w: World, w1: World, t: Task, r: Request, env: Env, q: Request)
    requires Constructible(r) && r.payload.TaskDispatched? && PathFits(t, r) && PlanFresh(w, t, r, env).Write?
    requires q.payload.TaskDispatched? && q == Renamed(r, q.eventId, q.payload.args.message) && Constructible(q)
    requires r.cas.taskId in w1.ledger && w1.ledger[r.cas.taskId] == t && w1.approvals == w.approvals
    requires q.eventId !in w1.events && q.payload.args.message !in w1.outbox
    requires forall g :: g in r.guards ==> !g.ApprovalGuard?
    ensures var plan, again := PlanFresh(w, t, r, env), Prepare(w1, q, env);
      && again.Write? && again.event == plan.event.(id := q.eventId, extra := again.event.extra)
      && again.event.id == q.eventId && again.outbox == OutboxOf(q, env) && again.acceptance.None?
  {
    FreshMeans(w, t, r, env);
    RenamedChecks(w, w1, t, r, env, q);
    RenamedEvent(t, r, env, q, r.guards + ApprovalGuards(r, env, PlanFresh(w, t, r, env).grant));
    NoApprovalGuard(q);
    var grant := PlanFresh(w, t, r, env).grant;
    PassedChecks(w1, t, q, env, None, grant);
    hide GrantFor, CasHolds, After, EventOf, Orphans, FreshAcceptance, OutboxOf, PathFits, Constructible, PlanFresh;
    assert ApprovalGuards(q, env, grant) == ApprovalGuards(r, env, grant);
    assert Prepare(w1, q, env) == PlanFresh(w1, t, q, env);
  }

  lemma PassedChecks(w: World, t: Task, r: Request, env: Env, acceptance: Option<Acceptance>, grant: Option<Grant>)
    requires Constructible(r) && PathFits(t, r) && !Orphans(w, t, r) && CasHolds(t, r, env)
    requires r.payload.TaskDispatched? ==> r.payload.args.newAttempt == t.Attempt() + 1
    requires FreshAcceptance(t, r, env) == Success(acceptance) && GrantFor(w, t, r, env) == Success(grant)
    ensures PlanFresh(w, t, r, env) ==
      Plan.Write(EventOf(t, r, env, r.guards + ApprovalGuards(r, env, grant)), OutboxOf(r, env), acceptance,
                 After(t, r.payload, env.Now()), grant)
  {
    hide GrantFor, CasHolds, After, EventOf, Orphans, FreshAcceptance, OutboxOf, PathFits, Constructible;
  }

  lemma RenamedChecks(w: World, w1: World, t: Task, r: Request, env: Env, q: Request)
    requires r.payload.TaskDispatched? && q.payload.TaskDispatched? && q == Renamed(r, q.eventId, q.payload.args.message)
    requires Constructible(r) && Constructible(q) && w1.approvals == w.approvals && PathFits(t, r)
    requires CasHolds(t, r, env) && q.payload.args.message !in w1.outbox
    ensures PathFits(t, q) && CasHolds(t, q, env) && !Orphans(w1, t, q) && FreshAcceptance(t, q, env) == Success(None)
    ensures GrantFor(w1, t, q, env) == GrantFor(w, t, r, env)
  {
    hide Require;
  }

  lemma RenamedEvent(t: Task, r: Request, env: Env, q: Request, guards: seq<Guard>)
    requires r.payload.TaskDispatched? && q.payload.TaskDispatched? && q == Renamed(r, q.eventId, q.payload.args.message)
    ensures var again := EventOf(t, q, env, guards);
            again.id == q.eventId && again == EventOf(t, r, env, guards).(id := q.eventId, extra := again.extra)
  {
  }
}
