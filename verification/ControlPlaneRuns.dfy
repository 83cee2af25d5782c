/** Runs of the control plane: any interleaving of transitions, each cut off after any write, and approval calls. */
module ControlPlaneRuns {
  import opened Wrappers
  import opened Approvals
  import opened GateFacts
  import opened ApprovalRuns
  import opened Ledger
  import opened Texts
  import opened Events
  import opened EventReader
  import opened AcceptanceFiles
  import opened Transition
  import opened ControlPlane
  import opened History

  // ---- What is on disk after the first n writes -------------------------------------------------------------------

  /** The stores after the first `n` writes, store by store. */
  function Landed(w: World, r: Request, plan: Plan, n: nat): World
    requires plan.Write?
  {
    World(
      if n + 2 >= |Writes(r, plan)| then w.ledger[r.cas.taskId := plan.task] else w.ledger,
      if n >= 1 then w.events[plan.event.id := plan.event] else w.events,
      if n >= 2 && plan.outbox.Some? then w.outbox[plan.outbox.value.message := plan.outbox.value] else w.outbox,
      if n >= 2 && plan.acceptance.Some? && PathOf(r.payload).Some?
      then w.acceptances[PathOf(r.payload).value := plan.acceptance.value] else w.acceptances,
      w.approvals)
  }

  lemma {:induction false} WritesLand(w: World, r: Request, plan: Plan, n: nat)
    requires plan.Write? && n <= |Writes(r, plan)| && (plan.outbox.Some? ==> PathOf(r.payload).None?)
    ensures PutAll(w, Writes(r, plan)[..n]) == Landed(w, r, plan, n)
    decreases n
  {
    var ws := Writes(r, plan);
    if n > 0 {
      WritesLand(w, r, plan, n - 1);
      PutAllStep(w, ws, n - 1);
      hide PutAll;
    }
  }

  // ---- A transition that writes ----------------------------------------------------------------------------------

  /** The acceptance record that the ledger points to, if it is there. */
  function ReviewedIn(w: World, t: Task): Option<Acceptance> {
    if t.acceptancePath.Some? && t.acceptancePath.value in w.acceptances
    then Some(w.acceptances[t.acceptancePath.value]) else None
  }

  function EntryOf(w: World, r: Request, env: Env, plan: Plan): Entry
    requires plan.Write? && r.cas.taskId in w.ledger
  {
    Entry(r, env, w.ledger[r.cas.taskId], plan.task, plan.event, plan.outbox, plan.acceptance, plan.grant, w.approvals,
          ReviewedIn(w, w.ledger[r.cas.taskId]))
  }

  lemma WriteIsFresh(w: World, r: Request, env: Env)
    requires Constructible(r) && Prepare(w, r, env).Write?
    ensures r.cas.taskId in w.ledger && r.eventId !in w.events
    ensures var t := w.ledger[r.cas.taskId];
            PathFits(t, r) && Prepare(w, r, env) == PlanFresh(w, t, r, env)
    ensures forall g :: g in r.guards ==> !g.ApprovalGuard?
  {
    hide PlanFresh, PathFits, Constructible;
  }

  lemma FreshMeans(w: World, t: Task, r: Request, env: Env)
    requires Constructible(r) && PathFits(t, r) && PlanFresh(w, t, r, env).Write?
    ensures var plan := PlanFresh(w, t, r, env);
      && !Orphans(w, t, r) && CasHolds(t, r, env)
      && (r.payload.TaskDispatched? ==> r.payload.args.newAttempt == t.Attempt() + 1)
      && FreshAcceptance(t, r, env) == Success(plan.acceptance) && GrantFor(w, t, r, env) == Success(plan.grant)
      && plan.event == EventOf(t, r, env, r.guards + ApprovalGuards(r, env, plan.grant))
      && plan.outbox == OutboxOf(r, env) && plan.task == After(t, r.payload, env.Now())
  {
    hide Orphans, CasHolds, EventOf, OutboxOf, After, GrantFor, FreshAcceptance, PathFits, Constructible;
  }

  /** What an approval is asked for names the task, revision and attempt, and for an integration what the record reads. */
  lemma SubjectMeans(w: World, t: Task, r: Request, env: Env)
    requires Constructible(r) && CasHolds(t, r, env) && IsGated(r.payload) && SubjectOf(w, t, r).Success?
    ensures var s := SubjectOf(w, t, r).value;
      && s.taskId == r.cas.taskId && s.revision == r.cas.revision && Some(s.attempt) == EventAttempt(t, r.payload)
      && (r.payload.ChangeIntegrated? ==> ReviewedIn(w, t).Some? && IntegrationFits(s, ReviewedIn(w, t).value, r.payload))
  {
    hide ReadRecord, EqualsNumber, IsSafeText, IsShaText;
  }

  lemma GrantMeans(w: World, t: Task, r: Request, env: Env)
    requires Constructible(r) && Sound(w.approvals) && CasHolds(t, r, env) && GrantFor(w, t, r, env).Success?
    ensures var grant := GrantFor(w, t, r, env).value;
      && (grant.Some? <==> IsGated(r.payload))
      && (grant.Some? ==>
            var g := grant.value;
            && g.scope == ScopeOf(r.payload) && g.subject.taskId == r.cas.taskId && g.subject.revision == r.cas.revision
            && Some(g.subject.attempt) == EventAttempt(t, r.payload)
            && g.eventId in w.approvals && w.approvals[g.eventId] == GrantRecord(g) && !IsExpired(g, env.now)
            && AllInHistory(w.approvals, env.git)
            && forall e :: e in w.approvals && w.approvals[e].RevokeRecord? && w.approvals[e].revoke.approvalId == g.approvalId
                 ==> env.now < w.approvals[e].revoke.revokedAt)
      && (r.payload.ChangeIntegrated? ==>
            ReviewedIn(w, t).Some? && IntegrationFits(grant.value.subject, ReviewedIn(w, t).value, r.payload))
  {
    hide Require, Sound, SubjectOf, IntegrationFits, CasHolds, EventAttempt, ReviewedIn, Constructible;
    if IsGated(r.payload) {
      var subject := SubjectOf(w, t, r).value;
      SubjectMeans(w, t, r, env);
      PassedMeans(w.approvals, env.git, CheckRequest(ScopeOf(r.payload), subject, env.git.head), env.now);
      RequiredOnHistory(w.approvals, env.git, CheckRequest(ScopeOf(r.payload), subject, env.git.head), env.now);
    }
  }

  /** A transition that gets as far as writing would be a legitimate commit, and collides with no file. */
  lemma WriteIsLegit(w: World, r: Request, env: Env)
    requires Constructible(r) && Sound(w.approvals) && Prepare(w, r, env).Write?
    ensures r.cas.taskId in w.ledger
    ensures var plan := Prepare(w, r, env);
            var c := EntryOf(w, r, env, plan);
            Legit(c.before, c) && GrantAlive(c) && Collisionless(w, plan.event, plan.outbox, PathOf(r.payload))
  {
    hide IntegrationFits, Proofread, Prepare, PlanFresh, GrantFor, Sound, After, Require;
    WriteIsFresh(w, r, env);
    var t := w.ledger[r.cas.taskId];
    FreshMeans(w, t, r, env);
    MovesOn(w, t, r, env.Now());
    GrantMeans(w, t, r, env);
  }

  lemma MovesOn(w: World, t: Task, r: Request, now: Instant)
    requires !Orphans(w, t, r)
    ensures After(t, r.payload, now).state != t.state
  {
  }

  predicate Collisionless(w: World, event: Event, outbox: Option<Outbox>, path: Option<AcceptancePath>) {
    && event.id !in w.events
    && (outbox.Some? ==> outbox.value.message !in w.outbox)
    && (path.Some? ==> path.value !in w.acceptances)
  }

  // ---- Systems and runs ------------------------------------------------------------------------------------------

  /** The stores, and the log of the transitions whose ledger write took place. */
  datatype System = System(world: World, log: seq<Entry>)

  /** A call under the state lock: a transition of which `budget` writes take place, or a call of an approval writer. */
  datatype Step = Transit(r: Request, env: Env, budget: nat) | Approve(call: Call)

  predicate Possible(step: Step) { step.Transit? ==> Constructible(step.r) }

  ghost function Next(s: System, step: Step): System
    requires Possible(step)
  {
    match step
    case Approve(call) => s.(world := s.world.(approvals := Apply(s.world.approvals, call)))
    case Transit(r, env, budget) =>
      var plan := Prepare(s.world, r, env);
      var world := Execute(s.world, r, env, budget).0;
      if plan.Write? && r.cas.taskId in s.world.ledger && budget + 2 >= |Writes(r, plan)|
      then System(world, s.log + [EntryOf(s.world, r, env, plan)])
      else System(world, s.log)
  }

  ghost function RunSteps(s: System, steps: seq<Step>): System
    requires forall step :: step in steps ==> Possible(step)
    decreases |steps|
  {
    if steps == [] then s else RunSteps(Next(s, steps[0]), steps[1..])
  }

  function Initial(tasks: map<TaskId, Task>): System {
    System(World(tasks, map[], map[], map[], map[]), [])
  }

  // ---- Growth: no evidence file is ever overwritten or removed -----------------------------------------------------

  predicate Grows(w: World, w': World) {
    && (forall e :: e in w.events ==> e in w'.events && w'.events[e] == w.events[e])
    && (forall m :: m in w.outbox ==> m in w'.outbox && w'.outbox[m] == w.outbox[m])
    && (forall p :: p in w.acceptances ==> p in w'.acceptances && w'.acceptances[p] == w.acceptances[p])
    && Extends(w'.approvals, w.approvals)
  }

  /** What a call leaves on disk, in terms of its plan. */
  lemma ExecuteLands(w: World, r: Request, env: Env, budget: nat)
    requires Constructible(r) && Sound(w.approvals)
    ensures var plan := Prepare(w, r, env);
            Execute(w, r, env, budget).0 ==
            if !plan.Write? then w
            else Landed(w, r, plan, if budget < |Writes(r, plan)| then budget else |Writes(r, plan)|)
  {
    var plan := Prepare(w, r, env);
    if plan.Write? {
      WriteIsLegit(w, r, env);
      var n := if budget < |Writes(r, plan)| then budget else |Writes(r, plan)|;
      assert Writes(r, plan)[..|Writes(r, plan)|] == Writes(r, plan);
      WritesLand(w, r, plan, n);
    }
    hide Prepare, PutAll, Landed, Sound, Legit, GrantAlive;
  }

  lemma LandedGrows(w: World, r: Request, plan: Plan, n: nat)
    requires plan.Write? && Collisionless(w, plan.event, plan.outbox, PathOf(r.payload))
    ensures Grows(w, Landed(w, r, plan, n))
  {
    hide Writes;
  }

  /** A call whose event id exists writes nothing, whatever it asks for. */
  lemma ExistingEventWritesNothing(w: World, r: Request, env: Env, budget: nat)
    requires Constructible(r) && r.eventId in w.events
    ensures Execute(w, r, env, budget).0 == w
  {
    if Prepare(w, r, env).Write? {
      WriteIsFresh(w, r, env);
    }
    hide Prepare;
  }

  /** No step overwrites or removes an event, an outbox message, an acceptance record or an approval. */
  lemma NextGrows(s: System, step: Step)
    requires Possible(step) && Sound(s.world.approvals)
    ensures Grows(s.world, Next(s, step).world)
    ensures Sound(Next(s, step).world.approvals)
  {
    hide Sound, Prepare, Execute, Legit, GrantAlive, Writes, Apply;
    match step
    case Approve(call) =>
      ApplyKeepsSound(s.world.approvals, call);
    case Transit(r, env, budget) =>
      ExecuteLands(s.world, r, env, budget);
      var plan := Prepare(s.world, r, env);
      if plan.Write? {
        WriteIsLegit(s.world, r, env);
        LandedGrows(s.world, r, plan, if budget < |Writes(r, plan)| then budget else |Writes(r, plan)|);
      }
  }
}
