/** What holds in every reachable state of the control plane, including states cut off after any single write. */
module ControlPlaneSafety {
  import opened Wrappers
  import opened Approvals
  import opened ApprovalRuns
  import opened Ledger
  import opened Events
  import opened Transition
  import opened History
  import opened ControlPlaneRuns

  // ---- The invariant ---------------------------------------------------------------------------------------------

  /** The evidence of a commit is on disk, unchanged, and the approvals it saw are still there. */
  ghost predicate Durable(w: World, c: Entry) {
    && c.event.id in w.events && w.events[c.event.id] == c.event
    && (c.outbox.Some? ==> c.outbox.value.message in w.outbox && w.outbox[c.outbox.value.message] == c.outbox.value)
    && (c.acceptance.Some? && PathOf(c.Payload()).Some? ==>
          PathOf(c.Payload()).value in w.acceptances
          && w.acceptances[PathOf(c.Payload()).value] == c.acceptance.value)
    && (c.reviewed.Some? ==>
          c.before.acceptancePath.Some? && c.before.acceptancePath.value in w.acceptances
          && w.acceptances[c.before.acceptancePath.value] == c.reviewed.value)
    && Sound(c.approvals) && Extends(w.approvals, c.approvals)
  }

  predicate IsGatedKind(k: Kind) { k.Dispatching? || k.Acceptation? || k.Integrating? }

  function ScopeOfKind(k: Kind): Scope {
    if k.Dispatching? then DispatchScope else if k.Acceptation? then AcceptScope else IntegrateScope
  }

  /** The last guard, and no other, is an approval guard; it names a stored grant of the event's scope for its task,
      revision and attempt that expires after the event. */
  predicate Guarded(approvals: Files, e: Event) {
    && e.guards != []
    && (forall i :: 0 <= i < |e.guards| - 1 ==> !e.guards[i].ApprovalGuard?)
    && var guard := e.guards[|e.guards| - 1];
       && guard.ApprovalGuard? && guard.scope == ScopeOfKind(e.kind)
       && guard.evidence in approvals && approvals[guard.evidence].GrantRecord?
       && var g := approvals[guard.evidence].grant;
          && g.approvalId == guard.approvalId && g.scope == guard.scope && g.subject.taskId == e.taskId
          && g.subject.revision == e.revision && Some(g.subject.attempt) == e.attempt
          && (g.expiresAt.Some? ==> e.occurredAt < g.expiresAt.value)
  }

  predicate EventsGuarded(w: World) {
    forall id :: id in w.events ==>
      w.events[id].id == id && (IsGatedKind(w.events[id].kind) ==> Guarded(w.approvals, w.events[id]))
  }

  ghost predicate AllDurable(w: World, log: seq<Entry>) {
    forall i :: 0 <= i < |log| ==> Durable(w, log[i]) && GrantAlive(log[i])
  }

  predicate DistinctEvents(log: seq<Entry>) {
    forall i, j :: 0 <= i < j < |log| ==> log[i].event.id != log[j].event.id
  }

  ghost predicate Inv(start: Tasks, s: System) {
    && Sound(s.world.approvals)
    && LegitLog(start, s.log)
    && s.world.ledger == LedgerAfter(start, s.log)
    && AllDurable(s.world, s.log)
    && DistinctEvents(s.log)
    && EventsGuarded(s.world)
  }

  lemma InitialInv(tasks: Tasks)
    ensures Inv(tasks, Initial(tasks))
  {
  }

  // ---- Preservation ----------------------------------------------------------------------------------------------

  lemma GrowingKeepsDurable(w: World, w': World, log: seq<Entry>)
    requires Grows(w, w') && AllDurable(w, log)
    ensures AllDurable(w', log)
  {
    hide Sound, GrantAlive;
    forall i | 0 <= i < |log| ensures Durable(w', log[i]) && GrantAlive(log[i]) {
      assert Durable(w, log[i]);
    }
  }

  lemma GrowingKeepsGuarded(approvals: Files, later: Files, e: Event)
    requires Extends(later, approvals) && Guarded(approvals, e)
    ensures Guarded(later, e)
  {
  }

  lemma LegitIsGuarded(t: Task, c: Entry)
    requires Legit(t, c) && GrantAlive(c) && IsGatedKind(c.event.kind) && Sound(c.approvals)
    ensures Guarded(c.approvals, c.event) && c.event.id == c.r.eventId
  {
    hide IntegrationFits, Sound, After, CasHolds, DispatchAfter;
  }

  lemma LegitIsDurable(w: World, r: Request, env: Env, plan: Plan, n: nat)
    requires plan.Write? && r.cas.taskId in w.ledger && Sound(w.approvals)
    requires n <= |Writes(r, plan)| <= n + 2 && Collisionless(w, plan.event, plan.outbox, PathOf(r.payload))
    ensures Durable(Landed(w, r, plan, n), EntryOf(w, r, env, plan))
  {
    hide Sound;
  }

  lemma LandedGuarded(w: World, r: Request, env: Env, plan: Plan, n: nat)
    requires plan.Write? && r.cas.taskId in w.ledger && Sound(w.approvals) && EventsGuarded(w)
    requires var c := EntryOf(w, r, env, plan); Legit(c.before, c) && GrantAlive(c)
    ensures EventsGuarded(Landed(w, r, plan, n))
  {
    hide IntegrationFits;
    var c := EntryOf(w, r, env, plan);
    if IsGatedKind(plan.event.kind) {
      LegitIsGuarded(c.before, c);
    }
    hide Sound, Legit, GrantAlive, Guarded, Writes;
  }

  lemma TransitKeepsInv(start: Tasks, s: System, r: Request, env: Env, budget: nat)
    requires Inv(start, s) && Constructible(r)
    ensures Inv(start, Next(s, Transit(r, env, budget)))
  {
    var w, plan := s.world, Prepare(s.world, r, env);
    ExecuteLands(w, r, env, budget);
    NextGrows(s, Transit(r, env, budget));
    var s' := Next(s, Transit(r, env, budget));
    GrowingKeepsDurable(w, s'.world, s.log);
    if plan.Write? {
      WriteIsLegit(w, r, env);
      var n := if budget < |Writes(r, plan)| then budget else |Writes(r, plan)|;
      LandedGuarded(w, r, env, plan, n);
      if budget + 2 >= |Writes(r, plan)| {
        CommitKeepsInv(start, s, r, env, plan, n);
      }
    }
    hide Sound, LegitLog, LedgerAfter, AllDurable, DistinctEvents, EventsGuarded, Prepare, Execute, Legit, GrantAlive;
  }

  lemma CommitKeepsInv(start: Tasks, s: System, r: Request, env: Env, plan: Plan, n: nat)
    requires Inv(start, s) && plan.Write? && r.cas.taskId in s.world.ledger
    requires var c := EntryOf(s.world, r, env, plan);
             Legit(c.before, c) && GrantAlive(c) && Collisionless(s.world, plan.event, plan.outbox, PathOf(r.payload))
    requires n <= |Writes(r, plan)| <= n + 2
    ensures var log := s.log + [EntryOf(s.world, r, env, plan)];
            && LegitLog(start, log) && LedgerAfter(start, log) == Landed(s.world, r, plan, n).ledger
            && DistinctEvents(log) && AllDurable(Landed(s.world, r, plan, n), log)
  {
    var c := EntryOf(s.world, r, env, plan);
    var w' := Landed(s.world, r, plan, n);
    hide Legit, GrantAlive, EventsGuarded, Sound, Durable, AllDurable, DistinctEvents, LegitLog, LedgerAfter, Grows;
    assert c.event.id !in s.world.events && w'.ledger == s.world.ledger[c.Task() := c.after];
    hide Landed, Writes;
    LogExtends(start, s.log, c);
    LandedGrows(s.world, r, plan, n);
    GrowingKeepsDurable(s.world, w', s.log);
    LegitIsDurable(s.world, r, env, plan, n);
    DurableExtends(w', s.log, c);
    StaysDistinct(s.world, s.log, c);
  }

  lemma DurableExtends(w: World, log: seq<Entry>, c: Entry)
    requires AllDurable(w, log) && Durable(w, c) && GrantAlive(c)
    ensures AllDurable(w, log + [c])
  {
    hide Durable, GrantAlive;
  }

  lemma LogExtends(start: Tasks, log: seq<Entry>, c: Entry)
    requires LegitLog(start, log) && c.Task() in LedgerAfter(start, log) && Legit(LedgerAfter(start, log)[c.Task()], c)
    ensures LegitLog(start, log + [c])
    ensures LedgerAfter(start, log + [c]) == LedgerAfter(start, log)[c.Task() := c.after]
  {
    hide Legit;
    assert (log + [c])[..|log + [c]| - 1] == log;
  }

  lemma StaysDistinct(w: World, log: seq<Entry>, c: Entry)
    requires AllDurable(w, log) && DistinctEvents(log) && c.event.id !in w.events
    ensures DistinctEvents(log + [c])
  {
    hide Sound, GrantAlive;
    forall i | 0 <= i < |log| ensures log[i].event.id != c.event.id {
      assert Durable(w, log[i]);
    }
  }

  lemma NextKeepsInv(start: Tasks, s: System, step: Step)
    requires Inv(start, s) && Possible(step)
    ensures Inv(start, Next(s, step))
  {
    match step
    case Transit(r, env, budget) => TransitKeepsInv(start, s, r, env, budget);
    case Approve(call) =>
      NextGrows(s, step);
      var w, w' := s.world, Next(s, step).world;
      GrowingKeepsDurable(w, w', s.log);
      forall id | id in w'.events && IsGatedKind(w'.events[id].kind) ensures Guarded(w'.approvals, w'.events[id]) {
        GrowingKeepsGuarded(w.approvals, w'.approvals, w.events[id]);
      }
      hide Sound, LegitLog, LedgerAfter, AllDurable, DistinctEvents, Guarded, Grows;
  }

  lemma {:induction false} RunKeepsInv(start: Tasks, s: System, steps: seq<Step>)
    requires Inv(start, s) && forall step :: step in steps ==> Possible(step)
    ensures Inv(start, RunSteps(s, steps)) && Grows(s.world, RunSteps(s, steps).world)
    decreases |steps|
  {
    hide Inv, Next, Possible;
    if steps != [] {
      NextKeepsInv(start, s, steps[0]);
      InvSound(start, s);
      NextGrows(s, steps[0]);
      RunKeepsInv(start, Next(s, steps[0]), steps[1..]);
    }
  }

  lemma InvSound(start: Tasks, s: System)
    requires Inv(start, s)
    ensures Sound(s.world.approvals)
  {
  }
}
