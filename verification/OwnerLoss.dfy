/** Recovery of a dispatch whose owner died: the checks that stand before a DISPATCH_FAILED transition, over the ledger,
    the dispatch evidence and the processes (`apply_owner_loss_recovery_transition`). */
module OwnerLoss {
  import opened Wrappers
  import opened Approvals
  import opened ApprovalRuns
  import opened Ledger
  import opened Texts
  import opened Events
  import opened EventReader
  import opened EventReading
  import opened EventRecovery
  import opened EventValues
  import opened EventFiles
  import opened EventDispatch
  import opened Transition
  import opened History
  import opened ControlPlane
  import opened ControlPlaneRuns
  import Evidence = DispatchReceipts
  import DispatchStore
  import opened Liveness
  import opened Replay
  import opened Deviations

  datatype Check = Check(
    taskId: TaskId, revision: int, attempt: int, dispatchId: DispatchId, generation: Evidence.GenerationId, state: State,
    eventId: EventId, failure: Text, evidenceRefs: seq<Text>)

  /** What the constructor of the check enforces. */
  predicate CheckOk(c: Check) {
    c.revision >= 1 && c.attempt >= 1 && (c.state.Dispatched? || c.state.InProgress?) && c.evidenceRefs != []
  }

  /** The surroundings of one recovery: those of a transition, the dispatch evidence, and the operating system from a
      first look on. */
  datatype Scene = Scene(env: Env, evidence: Evidence.Store, os: Timeline, look: nat, windows: bool)

  predicate Bound(r: Request, c: Check) {
    && r.payload.DispatchFailed? && r.cas.taskId == c.taskId && r.cas.revision == c.revision && r.cas.state == c.state
    && r.eventId == c.eventId && r.payload.failure == c.failure && r.evidenceRefs == c.evidenceRefs
  }

  /** The ledger holds the dispatch the check is about. */
  predicate LedgerFits(t: Task, c: Check) {
    t.state == c.state && t.revision == c.revision && t.attempt == Some(c.attempt) && t.DispatchId() == Some(c.dispatchId)
  }

  /** A receipt of that dispatch that got no further than its worker's start, and no tombstone. */
  predicate ReceiptFits(e: Evidence.Store, c: Check) {
    && c.dispatchId in e.receipts && c.dispatchId !in e.tombstones
    && var receipt := e.receipts[c.dispatchId];
       && receipt.identity == Evidence.Identity(c.taskId, c.revision, c.attempt, c.dispatchId)
       && receipt.generation == c.generation && (receipt.phase.SupervisorReady? || receipt.phase.WorkerStarted?)
  }

  /** Creator and process tree are probed one after the other, and both found dead. */
  predicate OwnerDead(s: Scene, c: Check)
    requires c.dispatchId in s.evidence.receipts
  {
    var receipt := s.evidence.receipts[c.dispatchId];
    var (creator, t) := Probe(s.os, s.look, receipt.creator, receipt.boot, None, true);
    creator.Dead? && ProbeDispatch(s.os, t, receipt, s.windows, true).0.Dead?
  }

  function IdentityOf(c: Check): Evidence.Identity { Evidence.Identity(c.taskId, c.revision, c.attempt, c.dispatchId) }

  /** Some event file cannot be read. */
  predicate Unconvertible(w: World) { exists id :: id in w.events && ReadFile(w.events[id]).None? }

  /** The event file, as read, names the dispatch and is of this kind. */
  predicate FileIs(e: Event, c: Check, kind: Kind) {
    ReadFile(e).Some? && IsAbout(ReadFile(e).value, IdentityOf(c)) && IsOfKind(ReadFile(e).value, kind)
  }

  predicate HasEvent(w: World, c: Check, kind: Kind) { exists id :: id in w.events && FileIs(w.events[id], c, kind) }

  predicate FileNames(e: Event, id: EventId) { ReadFile(e).Some? && Holds(ReadFile(e).value, EventIdKey, id.text) }

  predicate IdUsed(w: World, c: Check) { exists id :: id in w.events && FileNames(w.events[id], c.eventId) }

  /** The event files as read: the attempt was dispatched, acknowledged exactly when in progress, and has delivered and
      failed nothing. */
  predicate EventsFit(w: World, c: Check) {
    && HasEvent(w, c, Dispatching)
    && (HasEvent(w, c, Acknowledgement) <==> c.state.InProgress?)
    && !HasEvent(w, c, Submission) && !HasEvent(w, c, Acceptation) && !HasEvent(w, c, Integrating) && !HasEvent(w, c, Failing)
    && !IdUsed(w, c)
  }

  /** The ledger records no delivery of any kind, of this attempt or another. */
  predicate Undelivered(t: Task) {
    t.delivery.None? && t.implementation.None? && t.report.None? && t.acceptedCommit.None? && t.integratedCommit.None?
  }

  predicate LifecycleFits(w: World, t: Task, c: Check) { EventsFit(w, c) && Undelivered(t) }

  /** The dispatch is the ledger's, its evidence is in an early phase, and nobody runs it. */
  predicate IsLost(t: Task, s: Scene, c: Check) { LedgerFits(t, c) && ReceiptFits(s.evidence, c) && OwnerDead(s, c) }

  predicate SecondCheck(w: World, t: Task, s: Scene, c: Check) { IsLost(t, s, c) && !Unconvertible(w) && LifecycleFits(w, t, c) }

  /** The request as it goes to the transition core, with the head read under the lock. */
  function Rebased(r: Request, env: Env): Request { r.(cas := r.cas.(snapshot := env.git.head)) }

  function LeaseFloor(env: Env): Env { env.(leaseEpoch := if env.leaseEpoch < 1 then 1 else env.leaseEpoch) }

  ghost function Recover(w: World, r: Request, c: Check, s: Scene, budget: nat): (World, Result<Outcome, Error>)
    requires Constructible(r) && CheckOk(c)
  {
    if !Bound(r, c) then (w, Failure(Invalid))
    else if c.taskId !in w.ledger then (w, Failure(CasConflict))
    else
      var t := w.ledger[c.taskId];
      if (t.state.Ready? && t.dispatch.None?) || SecondCheck(w, t, s, c)
      then Execute(w, Rebased(r, s.env), LeaseFloor(s.env), budget)
      else (w, Failure(if IsLost(t, s, c) && Unconvertible(w) then SchemaError else CasConflict))
  }

  /** The recovery, with room for all its files, goes through. */
  ghost predicate Recovers(w: World, r: Request, c: Check, s: Scene) {
    Constructible(r) && CheckOk(c) && Recover(w, r, c, s, 4).1.Success?
  }

  // ---- What a recovery can do ---------------------------------------------------------------------------------------

  /** A recovery is a transition of the control plane or nothing, so whatever holds of all runs holds with recoveries. */
  lemma RecoveryIsAStep(w: World, r: Request, c: Check, s: Scene, budget: nat, log: seq<History.Entry>)
    requires Constructible(r) && CheckOk(c)
    ensures Constructible(Rebased(r, s.env))
    ensures Recover(w, r, c, s, budget).0 == w
         || Recover(w, r, c, s, budget).0 == Next(System(w, log), Transit(Rebased(r, s.env), LeaseFloor(s.env), budget)).world
  {
    hide Execute, SecondCheck, Prepare, Bound;
  }

  /** A task that is ready again can only have its recovery repeated: nothing is written. */
  lemma ReadyWritesNothing(w: World, r: Request, c: Check, s: Scene, budget: nat)
    requires Constructible(r) && CheckOk(c) && c.taskId in w.ledger
    requires w.ledger[c.taskId].state.Ready?
    ensures Recover(w, r, c, s, budget).0 == w
  {
    hide SecondCheck;
    if Bound(r, c) {
      var q := Rebased(r, s.env);
      if Prepare(w, q, LeaseFloor(s.env)).Write? {
        WriteIsFresh(w, q, LeaseFloor(s.env));
      }
    }
    hide Prepare;
  }

  /** If a recovery changes anything, all its checks held. */
  lemma RecoveryMeans(w: World, r: Request, c: Check, s: Scene, budget: nat)
    requires Constructible(r) && CheckOk(c) && Recover(w, r, c, s, budget).0 != w
    ensures Bound(r, c) && c.taskId in w.ledger && SecondCheck(w, w.ledger[c.taskId], s, c)
  {
    hide SecondCheck, Execute;
    if c.taskId in w.ledger && w.ledger[c.taskId].state.Ready? {
      ReadyWritesNothing(w, r, c, s, budget);
    }
  }

  /** A recovery that changes anything leaves nobody behind: from then on neither the creator nor the supervisor nor the
      worker nor the worker's process group of the failed dispatch runs, and no event file read as a delivery of it; if the
      event files and the dispatch id come back as they were, none was one. */
  lemma RecoveryIsSafe(w: World, r: Request, c: Check, s: Scene, budget: nat, later: nat)
    requires Constructible(r) && CheckOk(c) && Recover(w, r, c, s, budget).0 != w
    requires c.dispatchId in s.evidence.receipts && Lawful(s.os, s.evidence.receipts[c.dispatchId])
    requires forall t, u :: t <= u && !Running(s.os(t), s.evidence.receipts[c.dispatchId].creator)
               ==> !Running(s.os(u), s.evidence.receipts[c.dispatchId].creator)
    requires later >= EndOfProbes(s, c)
    ensures StaysDead(s.os(later), s.evidence.receipts[c.dispatchId], s.windows)
    ensures !Running(s.os(later), s.evidence.receipts[c.dispatchId].creator)
    ensures !HasEvent(w, c, Submission) && !HasEvent(w, c, Acceptation) && c.dispatchId !in s.evidence.tombstones
    ensures AllUnspoiled(w) && Kept(c.dispatchId.text) ==> !Recorded(w, c, Submission) && !Recorded(w, c, Acceptation)
  {
    RecoveryMeans(w, r, c, s, budget);
    hide Recover, Probe, ProbeDispatch, Running, StaysDead, HasEvent, LedgerFits, ReceiptFits, Bound, Constructible, Kept, Recorded, AllUnspoiled,
      Unconvertible, IdUsed;
    assert OwnerDead(s, c);
    ProbedDead(s, c, later);
    hide OwnerDead, Lawful, EndOfProbes;
    if AllUnspoiled(w) && Kept(c.dispatchId.text) {
      SeenIfKept(w, c, Submission);
      SeenIfKept(w, c, Acceptation);
    }
  }

  lemma ProbedDead(s: Scene, c: Check, later: nat)
    requires c.dispatchId in s.evidence.receipts && Lawful(s.os, s.evidence.receipts[c.dispatchId]) && OwnerDead(s, c)
    requires forall t, u :: t <= u && !Running(s.os(t), s.evidence.receipts[c.dispatchId].creator)
               ==> !Running(s.os(u), s.evidence.receipts[c.dispatchId].creator)
    requires later >= EndOfProbes(s, c)
    ensures StaysDead(s.os(later), s.evidence.receipts[c.dispatchId], s.windows)
    ensures !Running(s.os(later), s.evidence.receipts[c.dispatchId].creator)
  {
    hide Probe, ProbeDispatch, Running, StaysDead;
    var receipt := s.evidence.receipts[c.dispatchId];
    var t := Probe(s.os, s.look, receipt.creator, receipt.boot, None, true).1;
    ProbeIsSound(s.os, s.look, receipt.creator, receipt.boot, None, true);
    DeadIsSound(s.os, t, receipt, s.windows, true, later);
    hide Lawful;
    var u :| s.look <= u < t && !Running(s.os(u), receipt.creator);
    assert u <= later;
  }

  function EndOfProbes(s: Scene, c: Check): nat
    requires c.dispatchId in s.evidence.receipts
  {
    var receipt := s.evidence.receipts[c.dispatchId];
    ProbeDispatch(s.os, Probe(s.os, s.look, receipt.creator, receipt.boot, None, true).1, receipt, s.windows, true).1
  }

  /** When the checks hold and no event file has the name of the new one, the recovery commits, provided the request is
      bound to that dispatch and carries no approval guard of its own: no other check of the transition core can stop it. */
  lemma RecoveryCommits(w: World, r: Request, c: Check, s: Scene)
    requires Constructible(r) && CheckOk(c) && Bound(r, c) && c.taskId in w.ledger
    requires SecondCheck(w, w.ledger[c.taskId], s, c) && c.eventId !in w.events
    requires r.dispatchCas == Some(DispatchCas(c.dispatchId, c.attempt)) && forall g :: g in r.guards ==> !g.ApprovalGuard?
    ensures Recover(w, r, c, s, 4).1.Success?
    ensures var w' := Recover(w, r, c, s, 4).0;
      && w'.ledger == w.ledger[c.taskId := After(w.ledger[c.taskId], r.payload, s.env.Now())]
      && c.eventId in w'.events && w'.events[c.eventId].kind.Failing?
  {
    hide SecondCheck, IsLost, Unconvertible, Prepare, EventOf, After, PutAll;
    var t, q, env := w.ledger[c.taskId], Rebased(r, s.env), LeaseFloor(s.env);
    var plan := RecoveryPlan(w, r, c, s);
    assert |Writes(q, plan)| == 4;
    assert Writes(q, plan)[..4] == Writes(q, plan);
    WritesLand(w, q, plan, 4);
    KindAndId(t, q, env, plan.event.guards);
  }

  lemma RecoveryPlan(w: World, r: Request, c: Check, s: Scene) returns (plan: Plan)
    requires Constructible(r) && CheckOk(c) && Bound(r, c) && c.taskId in w.ledger
    requires SecondCheck(w, w.ledger[c.taskId], s, c) && c.eventId !in w.events
    requires r.dispatchCas == Some(DispatchCas(c.dispatchId, c.attempt)) && forall g :: g in r.guards ==> !g.ApprovalGuard?
    ensures var t, q, env := w.ledger[c.taskId], Rebased(r, s.env), LeaseFloor(s.env);
      && Constructible(q) && plan == Prepare(w, q, env)
      && plan.Write? && plan.outbox.None? && plan.acceptance.None? && plan.task == After(t, r.payload, s.env.Now())
      && plan.event == EventOf(t, q, env, plan.event.guards)
  {
    hide SecondCheck, CasHolds, Orphans, FreshAcceptance, GrantFor, PathFits, PlanFresh, After, PlanReplay, Constructible, EventOf, CheckOk;
    var t, q, env := w.ledger[c.taskId], Rebased(r, s.env), LeaseFloor(s.env);
    RecoveryPasses(w, r, c, s);
    PassedChecks(w, t, q, env, None, None);
    plan := Prepare(w, q, env);
    assert plan == PlanFresh(w, t, q, env);
    hide Prepare;
    EventGuardsAre(t, q, env, q.guards + ApprovalGuards(q, env, None));
  }

  lemma KindAndId(t: Task, r: Request, env: Env, guards: seq<Guard>)
    ensures EventOf(t, r, env, guards).kind == KindOf(r.payload) && EventOf(t, r, env, guards).id == r.eventId
  {
  }

  lemma RecoveryPasses(w: World, r: Request, c: Check, s: Scene)
    requires Constructible(r) && CheckOk(c) && Bound(r, c) && c.taskId in w.ledger
    requires SecondCheck(w, w.ledger[c.taskId], s, c) && r.dispatchCas == Some(DispatchCas(c.dispatchId, c.attempt))
    ensures var t, q, env := w.ledger[c.taskId], Rebased(r, s.env), LeaseFloor(s.env);
      && Constructible(q) && CasHolds(t, q, env) && PathFits(t, q) && !Orphans(w, t, q)
      && FreshAcceptance(t, q, env) == Success(None) && GrantFor(w, t, q, env) == Success(None)
  {
    hide OwnerDead, Require, LifecycleFits, Unconvertible, ReceiptFits;
  }

  /** An event file of that name stops the recovery, whether or not its text says that it is one. */
  lemma UsedIdIsRefused(w: World, r: Request, c: Check, s: Scene)
    requires Constructible(r) && CheckOk(c) && Bound(r, c) && c.taskId in w.ledger
    requires SecondCheck(w, w.ledger[c.taskId], s, c) && c.eventId in w.events
    requires forall g :: g in r.guards ==> !g.ApprovalGuard?
    ensures Recover(w, r, c, s, 4) == (w, Failure(DuplicateEvidence))
  {
    hide OwnerDead, LifecycleFits, Unconvertible, ReceiptFits, PlanFresh, EventOf, Events.EventText, RecoverGuard;
    var q := Rebased(r, s.env);
    NoApprovalGuard(q);
    assert Prepare(w, q, LeaseFloor(s.env)) == PlanReplay(w, w.ledger[c.taskId], q, LeaseFloor(s.env));
    hide Prepare;
  }

  /** For a task that is not ready, the checks and the name of the event decide. */
  lemma RecoveryDecided(w: World, r: Request, c: Check, s: Scene)
    requires Constructible(r) && CheckOk(c) && Bound(r, c) && c.taskId in w.ledger && !w.ledger[c.taskId].state.Ready?
    requires r.dispatchCas == Some(DispatchCas(c.dispatchId, c.attempt)) && forall g :: g in r.guards ==> !g.ApprovalGuard?
    ensures Recover(w, r, c, s, 4).1.Success? <==> SecondCheck(w, w.ledger[c.taskId], s, c) && c.eventId !in w.events
  {
    hide Recover, SecondCheck, Bound, Constructible, CheckOk;
    if SecondCheck(w, w.ledger[c.taskId], s, c) {
      if c.eventId in w.events { UsedIdIsRefused(w, r, c, s); } else { RecoveryCommits(w, r, c, s); }
    } else {
      UncheckedIsRefused(w, r, c, s);
    }
  }

  lemma UncheckedIsRefused(w: World, r: Request, c: Check, s: Scene)
    requires Constructible(r) && CheckOk(c) && Bound(r, c) && c.taskId in w.ledger && !w.ledger[c.taskId].state.Ready?
    requires !SecondCheck(w, w.ledger[c.taskId], s, c)
    ensures Recover(w, r, c, s, 4) ==
      (w, Failure(if IsLost(w.ledger[c.taskId], s, c) && Unconvertible(w) then SchemaError else CasConflict))
  {
    hide SecondCheck, IsLost, Unconvertible, Execute, Constructible;
  }

  // ---- What a recovery cannot do ------------------------------------------------------------------------------------

  // What the event files say and what their records say: `EventsFit` is about the files, what follows about the records.

  /** Every event is spelled as it must be, and its references claim nothing. */
  predicate AllUnspoiled(w: World) { forall id :: id in w.events ==> Unspoiled(w.events[id]) }

  predicate AllConvert(w: World) { forall id :: id in w.events ==> Converts(w.events[id]) }

  predicate Names(e: Event, c: Check) {
    e.taskId == c.taskId && e.revision == c.revision && e.attempt == Some(c.attempt) && e.dispatchId == Some(c.dispatchId)
  }

  predicate Recorded(w: World, c: Check, kind: Kind) {
    exists id :: id in w.events && Names(w.events[id], c) && w.events[id].kind == kind
  }

  /** The records: the attempt was dispatched, acknowledged exactly when in progress, and has delivered and failed
      nothing. */
  predicate RecordsFit(w: World, c: Check) {
    && Recorded(w, c, Dispatching)
    && (Recorded(w, c, Acknowledgement) <==> c.state.InProgress?)
    && !Recorded(w, c, Submission) && !Recorded(w, c, Acceptation) && !Recorded(w, c, Integrating) && !Recorded(w, c, Failing)
  }

  /** No event has the id of the new one or reads back as if it had, and none of another dispatch reads back as of this. */
  predicate Apart(w: World, c: Check) {
    && c.eventId !in w.events
    && forall id :: id in w.events ==> IsApart(w.events[id], c)
  }

  predicate IsApart(e: Event, c: Check) {
    && !ReadsAs(e.id.text, c.eventId.text)
    && (e.dispatchId.Some? && ReadsAs(e.dispatchId.value.text, c.dispatchId.text) ==> e.dispatchId.value == c.dispatchId)
  }

  /** Unspoiled files can all be read exactly if their records convert. */
  lemma ReadableExactly(w: World)
    requires AllUnspoiled(w)
    ensures Unconvertible(w) <==> !AllConvert(w)
  {
    hide Unspoiled, Converts, ReadFile;
    forall id | id in w.events ensures ReadFile(w.events[id]).None? <==> !Converts(w.events[id]) {
      FileReads(w.events[id]);
    }
  }

  lemma FileIsExactly(e: Event, c: Check, kind: Kind)
    requires Unspoiled(e)
    ensures FileIs(e, c, kind) <==> ReadFile(e).Some? && Concerns(e, IdentityOf(c)) && e.kind == kind
  {
    hide Unspoiled, ReadFile, IsAbout, IsOfKind, Concerns;
    if ReadFile(e).Some? {
      AboutExactly(e, IdentityOf(c));
      KindExactly(e, kind);
    }
  }

  lemma UnspoiledDispatch(e: Event)
    requires Unspoiled(e)
    ensures e.dispatchId.Some? ==> IsSafeText(e.dispatchId.value.text)
  {
    UnspoiledParts(e);
    hide Unspoiled;
  }

  /** A dispatch id that comes back as it was: the files and the records agree. */
  lemma NamesIfKept(e: Event, c: Check)
    requires Unspoiled(e) && Kept(c.dispatchId.text)
    ensures Concerns(e, IdentityOf(c)) <==> Names(e, c)
  {
    hide Unspoiled, ReadsAs, Kept, IsSafeText;
    if e.dispatchId.Some? {
      UnspoiledDispatch(e);
      if ReadsAs(e.dispatchId.value.text, c.dispatchId.text) { KeptAlone(e.dispatchId.value.text, c.dispatchId.text); }
      if e.dispatchId == Some(c.dispatchId) { KeptExactly(c.dispatchId.text); }
    }
  }

  lemma SeenIfKept(w: World, c: Check, kind: Kind)
    requires AllUnspoiled(w) && !Unconvertible(w) && Kept(c.dispatchId.text)
    ensures HasEvent(w, c, kind) <==> Recorded(w, c, kind)
  {
    hide Unspoiled, ReadFile, FileIs, Concerns, Names, Kept;
    forall id | id in w.events
      ensures FileIs(w.events[id], c, kind) <==> Names(w.events[id], c) && w.events[id].kind == kind
    {
      FileIsExactly(w.events[id], c, kind);
      NamesIfKept(w.events[id], c);
    }
  }

  /** A dispatch id that does not come back as it was is not seen at all. */
  lemma UnseenUnlessKept(w: World, c: Check, kind: Kind)
    requires AllUnspoiled(w) && Apart(w, c) && !Kept(c.dispatchId.text)
    ensures !HasEvent(w, c, kind)
  {
    hide Unspoiled, ReadFile, FileIs, Kept, ReadsAs, IsSafeText;
    forall id | id in w.events ensures !FileIs(w.events[id], c, kind) {
      var e := w.events[id];
      FileIsExactly(e, c, kind);
      UnspoiledDispatch(e);
      assert IsApart(e, c);
      if e.dispatchId == Some(c.dispatchId) { KeptExactly(c.dispatchId.text); }
    }
  }

  lemma IdUnused(w: World, c: Check)
    requires AllUnspoiled(w) && Apart(w, c)
    ensures !IdUsed(w, c)
  {
    hide Unspoiled, ReadFile, ReadsAs, Holds;
    forall id | id in w.events ensures !FileNames(w.events[id], c.eventId) {
      assert IsApart(w.events[id], c);
      if ReadFile(w.events[id]).Some? { IdExactly(w.events[id], c.eventId.text); }
    }
  }

  /** When the records fit, the event files do exactly if the dispatch id comes back as it was. */
  lemma EventsExactly(w: World, c: Check)
    requires AllUnspoiled(w) && AllConvert(w) && Apart(w, c) && RecordsFit(w, c)
    ensures EventsFit(w, c) <==> Kept(c.dispatchId.text)
  {
    hide AllUnspoiled, AllConvert, Apart, HasEvent, Recorded, IdUsed, Kept, Unconvertible;
    ReadableExactly(w);
    IdUnused(w, c);
    if Kept(c.dispatchId.text) {
      SeenIfKept(w, c, Dispatching);
      SeenIfKept(w, c, Acknowledgement);
      SeenIfKept(w, c, Submission);
      SeenIfKept(w, c, Acceptation);
      SeenIfKept(w, c, Integrating);
      SeenIfKept(w, c, Failing);
    } else {
      UnseenUnlessKept(w, c, Dispatching);
    }
  }

  /** All that the records say is as a recovery wants it, apart from deliveries in the ledger. */
  predicate OtherwiseFits(w: World, t: Task, s: Scene, c: Check) {
    IsLost(t, s, c) && AllUnspoiled(w) && Apart(w, c) && RecordsFit(w, c)
  }

  /** When all else fits, a recovery succeeds exactly if the ledger records no delivery, the texts and numbers of every
      stored event convert, and the dispatch id is no number and has nothing to escape. */
  lemma RecoveryExactly(w: World, r: Request, c: Check, s: Scene)
    requires Constructible(r) && CheckOk(c) && Bound(r, c) && c.taskId in w.ledger
    requires OtherwiseFits(w, w.ledger[c.taskId], s, c)
    requires r.dispatchCas == Some(DispatchCas(c.dispatchId, c.attempt)) && forall g :: g in r.guards ==> !g.ApprovalGuard?
    ensures Recover(w, r, c, s, 4).1.Success? <==>
              Undelivered(w.ledger[c.taskId]) && AllConvert(w) && Kept(c.dispatchId.text)
    ensures !Recover(w, r, c, s, 4).1.Success? ==>
              Recover(w, r, c, s, 4) == (w, Failure(if AllConvert(w) then CasConflict else SchemaError))
  {
    hide Recover, IsLost, AllUnspoiled, AllConvert, RecordsFit, EventsFit, Undelivered, Kept, Constructible, CheckOk, Bound, Unconvertible;
    var t := w.ledger[c.taskId];
    LostIsNotReady(t, s, c);
    assert c.eventId !in w.events;
    hide Apart;
    RecoveryDecided(w, r, c, s);
    ReadableExactly(w);
    if AllConvert(w) { EventsExactly(w, c); }
    if !SecondCheck(w, t, s, c) { UncheckedIsRefused(w, r, c, s); }
  }

  lemma LostIsNotReady(t: Task, s: Scene, c: Check)
    requires CheckOk(c) && IsLost(t, s, c)
    ensures !t.state.Ready?
  {
    hide OwnerDead, ReceiptFits;
  }

  // ---- Texts that stop a recovery or mislead it ---------------------------------------------------------------------

  /** A dispatch with the id 123 is never recovered, although its receipt, its events and its dispatch allow that id. */
  lemma DigitsAreNotRecovered(w: World, r: Request, c: Check, s: Scene)
    requires Constructible(r) && CheckOk(c) && Bound(r, c) && c.taskId in w.ledger
    requires OtherwiseFits(w, w.ledger[c.taskId], s, c) && c.dispatchId.text == "123"
    requires r.dispatchCas == Some(DispatchCas(c.dispatchId, c.attempt)) && forall g :: g in r.guards ==> !g.ApprovalGuard?
    ensures Recover(w, r, c, s, 4).1.Failure? && Recover(w, r, c, s, 4).0 == w
  {
    hide Recover, OtherwiseFits, Kept, AllConvert, Undelivered, Constructible, CheckOk, Bound;
    RecoveryExactly(w, r, c, s);
    DigitsAreNotKept();
  }

  /** One event of any task whose source message is named by a superscript stops the recovery of every dispatch. */
  lemma SuperscriptStopsRecovery(w: World, r: Request, c: Check, s: Scene, id: EventId)
    requires Constructible(r) && CheckOk(c) && Bound(r, c) && c.taskId in w.ledger && IsLost(w.ledger[c.taskId], s, c)
    requires id in w.events && Unspoiled(w.events[id]) && w.events[id].source == Some(Text("²"))
    ensures Recover(w, r, c, s, 4) == (w, Failure(SchemaError))
  {
    hide Recover, IsLost, Unspoiled, ReadFile, LifecycleFits, Constructible, CheckOk, Bound;
    SuperscriptDoesNotConvert(w.events[id]);
    LostIsNotReady(w.ledger[c.taskId], s, c);
    UncheckedIsRefused(w, r, c, s);
  }

  /** A submission with this reference hides itself: with it on file, exactly the same recoveries are let through. */
  lemma HiddenSubmission(w: World, c: Check, e: Event, t: Task, s: Scene)
    requires SpelledEvent(e) && ReturnsOnlyInReferences(e) && Converts(e) && e.evidenceRefs == [Text(CLAIMING_REFERENCE)]
    requires e.kind.Submission? && Names(e, c) && e.id !in w.events && !ReadsAs(e.id.text, c.eventId.text)
    requires c.dispatchId.text != "zzz\""
    ensures var w' := w.(events := w.events[e.id := e]);
      Recorded(w', c, Submission) && (SecondCheck(w', t, s, c) <==> SecondCheck(w, t, s, c))
  {
    hide SpelledEvent, ReturnsOnlyInReferences, Converts, IsLost, Undelivered, ReadsAs, Names, CLAIMING_REFERENCE, FileIs, FileNames,
      EventsFit, Unconvertible;
    var w' := w.(events := w.events[e.id := e]);
    HiddenFile(e, c);
    SameEvents(w, w', c, e);
    assert w'.events[e.id] == e;
  }

  lemma HiddenFile(e: Event, c: Check)
    requires SpelledEvent(e) && ReturnsOnlyInReferences(e) && Converts(e) && e.evidenceRefs == [Text(CLAIMING_REFERENCE)]
    requires !ReadsAs(e.id.text, c.eventId.text) && c.dispatchId.text != "zzz\""
    ensures ReadFile(e).Some? && (forall kind :: !FileIs(e, c, kind)) && !FileNames(e, c.eventId)
  {
    hide SpelledEvent, ReturnsOnlyInReferences, Converts, ReadFile, FileIs, Coerce, Emit, CLAIMING_REFERENCE;
    ClaimingReference(e);
    ClaimedElsewhere(e, c);
  }

  lemma ClaimedElsewhere(e: Event, c: Check)
    requires ReadFile(e).Some? && Lookup(ReadFile(e).value.top, DispatchIdKey) == Some(Words("zzz\""))
    requires c.dispatchId.text != "zzz\""
    ensures forall kind :: !FileIs(e, c, kind)
  {
    hide ReadFile, IsOfKind;
  }

  lemma SameEvents(w: World, w': World, c: Check, e: Event)
    requires e.id !in w.events && w' == w.(events := w.events[e.id := e])
    requires ReadFile(e).Some? && (forall kind :: !FileIs(e, c, kind)) && !FileNames(e, c.eventId)
    ensures Unconvertible(w') <==> Unconvertible(w)
    ensures EventsFit(w', c) <==> EventsFit(w, c)
  {
    hide ReadFile, FileIs, FileNames;
    forall kind ensures HasEvent(w', c, kind) <==> HasEvent(w, c, kind) {
      if HasEvent(w, c, kind) {
        var id :| id in w.events && FileIs(w.events[id], c, kind);
        assert w'.events[id] == w.events[id];
      }
      if HasEvent(w', c, kind) {
        var id :| id in w'.events && FileIs(w'.events[id], c, kind);
        assert w'.events[id] == w.events[id];
      }
    }
    if IdUsed(w, c) {
      var id :| id in w.events && FileNames(w.events[id], c.eventId);
      assert w'.events[id] == w.events[id];
    }
    if IdUsed(w', c) {
      var id :| id in w'.events && FileNames(w'.events[id], c.eventId);
      assert w'.events[id] == w.events[id];
    }
    if Unconvertible(w) {
      var id :| id in w.events && ReadFile(w.events[id]).None?;
      assert w'.events[id] == w.events[id];
    }
    hide HasEvent, IdUsed;
  }

  // ---- Histories ----------------------------------------------------------------------------------------------------

  /** Whether the ledger records a delivery, by the commits of the task: since the last failure or rescope it was
      submitted, accepted or returned. */
  predicate Delivers(cs: seq<History.Entry>)
    decreases |cs|
  {
    cs != [] &&
      var kind := cs[|cs| - 1].event.kind;
      if kind.Submission? || kind.Acceptation? || kind.Return? then true
      else if kind.Failing? || kind.Rescoping? then false
      else Delivers(cs[..|cs| - 1])
  }

  /** Since the last rescope it was accepted; a failure does not clear that. */
  predicate Accepts(cs: seq<History.Entry>)
    decreases |cs|
  {
    cs != [] &&
      var kind := cs[|cs| - 1].event.kind;
      if kind.Acceptation? then true else if kind.Rescoping? then false else Accepts(cs[..|cs| - 1])
  }

  predicate Integrates(cs: seq<History.Entry>) { exists i :: 0 <= i < |cs| && cs[i].event.kind.Integrating? }

  /** What the ledger records of deliveries, from a task that starts with none. */
  predicate DeliveryRecord(t: Task, delivers: bool, accepts: bool, integrates: bool) {
    && (t.delivery.Some? <==> delivers) && (t.acceptedCommit.Some? <==> accepts) && (t.integratedCommit.Some? <==> integrates)
    && (t.implementation.Some? ==> delivers) && (t.report.Some? ==> delivers)
  }

  lemma RecordStep(t: Task, c: History.Entry, delivers: bool, accepts: bool, integrates: bool)
    requires Legit(t, c) && DeliveryRecord(t, delivers, accepts, integrates)
    ensures var kind := c.event.kind;
      DeliveryRecord(c.after,
        if kind.Submission? || kind.Acceptation? || kind.Return? then true
        else if kind.Failing? || kind.Rescoping? then false else delivers,
        if kind.Acceptation? then true else if kind.Rescoping? then false else accepts,
        kind.Integrating? || integrates)
  {
    hide IntegrationFits;
  }

  lemma {:induction false} RecordOfChain(t: Task, cs: seq<History.Entry>)
    requires Chain(t, cs) && Undelivered(t)
    ensures DeliveryRecord(End(t, cs), Delivers(cs), Accepts(cs), Integrates(cs))
    decreases |cs|
  {
    hide Legit, DeliveryRecord;
    if cs == [] {
      BlankRecord(t);
    } else {
      var init, last := cs[..|cs| - 1], cs[|cs| - 1];
      RecordOfChain(t, init);
      RecordStep(End(t, init), last, Delivers(init), Accepts(init), Integrates(init));
      IntegratesStep(cs);
    }
  }

  lemma BlankRecord(t: Task)
    requires Undelivered(t)
    ensures DeliveryRecord(t, false, false, false)
  {
  }

  lemma IntegratesStep(cs: seq<History.Entry>)
    requires cs != []
    ensures Integrates(cs) <==> cs[|cs| - 1].event.kind.Integrating? || Integrates(cs[..|cs| - 1])
  {
    var init := cs[..|cs| - 1];
    if Integrates(init) {
      var i :| 0 <= i < |init| && init[i].event.kind.Integrating?;
      assert cs[i] == init[i];
    }
    if Integrates(cs) {
      var i :| 0 <= i < |cs| && cs[i].event.kind.Integrating?;
      assert i < |init| ==> init[i] == cs[i];
    }
  }

  /** Returning a delivery does not clear it, and neither does dispatching the task again. When everything else fits, a
      task with this history is recovered from the loss of its owner exactly if nothing was submitted, accepted or
      returned since its last failure or rescope, accepted since its last rescope, or ever integrated, all stored events
      convert, and its dispatch id is no number and has nothing to escape. */
  lemma DeliveredIsNotRecovered(w: World, t: Task, cs: seq<History.Entry>, r: Request, c: Check, s: Scene)
    requires Constructible(r) && CheckOk(c) && Bound(r, c) && c.taskId in w.ledger
    requires Chain(t, cs) && Undelivered(t) && w.ledger[c.taskId] == End(t, cs) && OtherwiseFits(w, w.ledger[c.taskId], s, c)
    requires r.dispatchCas == Some(DispatchCas(c.dispatchId, c.attempt)) && forall g :: g in r.guards ==> !g.ApprovalGuard?
    ensures Recover(w, r, c, s, 4).1.Success? <==>
              !Delivers(cs) && !Accepts(cs) && !Integrates(cs) && AllConvert(w) && Kept(c.dispatchId.text)
  {
    hide Recover, Chain, End, OtherwiseFits, Delivers, Accepts, Integrates, Bound, Constructible, AllConvert, Kept;
    RecoveryExactly(w, r, c, s);
    RecordOfChain(t, cs);
  }

  /** After a delivery, its return, a requeue and another dispatch, the loss of the new owner cannot be recovered from,
      whatever else is found. */
  lemma RedispatchIsNotRecovered(s: System, id: TaskId, env: Env, names: Round, implementation: Commit, report: Commit,
                                 args: DispatchArgs, r: Request, c: Check, scene: Scene)
    requires Sound(s.world.approvals) && id in s.world.ledger && names.Fresh(s.world) && args.message !in s.world.outbox
    requires Redispatchable(s.world, id, s.world.ledger[id], env, args)
    requires Constructible(r) && CheckOk(c) && Bound(r, c) && c.taskId == id
    ensures var w := AfterRound(s, id, env, names, implementation, report, args).world;
      RefusesRecovery(w, r, c, scene)
  {
    hide AfterRound, Recover, Require, Sound, Bound, Constructible, IsLost, CheckOk, Unconvertible, EventsFit, Redispatchable;
    DeliverySurvives(s, id, env, names, implementation, report, args);
    UncheckedIsRefused(AfterRound(s, id, env, names, implementation, report, args).world, r, c, scene);
  }

  ghost predicate RefusesRecovery(w: World, r: Request, c: Check, s: Scene) {
    && c.taskId in w.ledger && Constructible(r) && CheckOk(c)
    && Recover(w, r, c, s, 4) == (w, Failure(if IsLost(w.ledger[c.taskId], s, c) && Unconvertible(w) then SchemaError else CasConflict))
  }

  // ---- The recovery as it runs --------------------------------------------------------------------------------------

  /** Reading all event files, in any order. */
  method ReadFiles(events: map<EventId, Event>) returns (docs: Option<seq<Reading>>)
    ensures docs.None? <==> exists id :: id in events && ReadFile(events[id]).None?
    ensures docs.Some? ==> (forall id :: id in events ==> ReadFile(events[id]).value in docs.value)
    ensures docs.Some? ==> forall d :: d in docs.value ==> exists id :: id in events && ReadFile(events[id]) == Some(d)
  {
    hide Parse, Translated, Events.EventText;
    var left, read := events.Keys, [];
    while left != {}
      invariant left <= events.Keys
      invariant forall id :: id in events && id !in left ==> ReadFile(events[id]).Some? && ReadFile(events[id]).value in read
      invariant forall d :: d in read ==> exists id :: id in events && ReadFile(events[id]) == Some(d)
      decreases left
    {
      var id :| id in left;
      var doc := ParseMapping(Translated(Events.EventText(events[id])));
      if doc.None? {
        assert ReadFile(events[id]).None?;
        return None;
      }
      read, left := read + [doc.value], left - {id};
    }
    return Some(read);
  }

  /** What the documents say of the dispatch. */
  predicate DocumentsFit(docs: seq<Reading>, c: Check) {
    && AnyIs(docs, c, Dispatching) && (AnyIs(docs, c, Acknowledgement) <==> c.state.InProgress?)
    && !AnyIs(docs, c, Submission) && !AnyIs(docs, c, Acceptation) && !AnyIs(docs, c, Integrating) && !AnyIs(docs, c, Failing)
    && !exists d :: d in docs && Holds(d, EventIdKey, c.eventId.text)
  }

  predicate AnyIs(docs: seq<Reading>, c: Check, kind: Kind) {
    exists d :: d in docs && IsAbout(d, IdentityOf(c)) && IsOfKind(d, kind)
  }

  predicate Documents(w: World, docs: seq<Reading>) {
    && (forall id :: id in w.events ==> ReadFile(w.events[id]).Some? && ReadFile(w.events[id]).value in docs)
    && forall d :: d in docs ==> exists id :: id in w.events && ReadFile(w.events[id]) == Some(d)
  }

  lemma DocumentsAreFiles(w: World, c: Check, docs: seq<Reading>)
    requires Documents(w, docs)
    ensures DocumentsFit(docs, c) <==> EventsFit(w, c)
  {
    hide ReadFile, IsAbout, IsOfKind, Holds;
    forall kind ensures AnyIs(docs, c, kind) <==> HasEvent(w, c, kind) {
      if HasEvent(w, c, kind) {
        var id :| id in w.events && FileIs(w.events[id], c, kind);
        assert ReadFile(w.events[id]).value in docs;
      }
      if AnyIs(docs, c, kind) {
        var d :| d in docs && IsAbout(d, IdentityOf(c)) && IsOfKind(d, kind);
        var id :| id in w.events && ReadFile(w.events[id]) == Some(d);
        assert FileIs(w.events[id], c, kind);
      }
    }
    if IdUsed(w, c) {
      var id :| id in w.events && FileNames(w.events[id], c.eventId);
      assert ReadFile(w.events[id]).value in docs;
    }
    if exists d :: d in docs && Holds(d, EventIdKey, c.eventId.text) {
      var d :| d in docs && Holds(d, EventIdKey, c.eventId.text);
      var id :| id in w.events && ReadFile(w.events[id]) == Some(d);
      assert FileNames(w.events[id], c.eventId);
    }
    hide AnyIs, HasEvent, IdUsed;
  }

  /** The second check, on what is read under the lock. */
  method CheckAgain(w: World, t: Task, store: DispatchStore.EvidenceStore, c: Check, s: Scene) returns (error: Option<Error>)
    requires s.evidence == Evidence.Store(store.receipts, store.tombstones)
    ensures error == if SecondCheck(w, t, s, c) then None
                     else Some(if IsLost(t, s, c) && Unconvertible(w) then SchemaError else CasConflict)
  {
    hide Probe, ProbeDispatch, EventsFit, DocumentsFit, ReadFile, Undelivered;
    if !LedgerFits(t, c) {
      return Some(CasConflict);
    }
    if !ReceiptFits(Evidence.Store(store.receipts, store.tombstones), c) {
      return Some(CasConflict);
    }
    var receipt := store.receipts[c.dispatchId];
    var (creator, look) := Probe(s.os, s.look, receipt.creator, receipt.boot, None, true);
    var tree := ProbeDispatch(s.os, look, receipt, s.windows, true).0;
    if !creator.Dead? || !tree.Dead? {
      return Some(CasConflict);
    }
    assert IsLost(t, s, c);
    hide IsLost;
    var docs := ReadFiles(w.events);
    if docs.None? {
      return Some(SchemaError);
    }
    DocumentsAreFiles(w, c, docs.value);
    if !DocumentsFit(docs.value, c) || !Undelivered(t) {
      return Some(CasConflict);
    }
    return None;
  }

  /** `apply_owner_loss_recovery_transition`. */
  method ApplyOwnerLoss(service: Service, store: DispatchStore.EvidenceStore, r: Request, c: Check, s: Scene, budget: nat)
    returns (o: Result<Outcome, Error>)
    requires Constructible(r) && CheckOk(c) && s.evidence == Evidence.Store(store.receipts, store.tombstones)
    modifies service
    ensures (service.Contents(), o) == Recover(old(service.Contents()), r, c, s, budget)
  {
    hide Execute, SecondCheck, IsLost, Unconvertible, Prepare, Bound;
    if !Bound(r, c) {
      return Failure(Invalid);
    }
    if c.taskId !in service.ledger {
      return Failure(CasConflict);
    }
    var t := service.ledger[c.taskId];
    if !(t.state.Ready? && t.dispatch.None?) {
      var w := World(service.ledger, service.events, service.outbox, service.acceptances, service.approvals);
      var error := CheckAgain(w, t, store, c, s);
      if error.Some? {
        return Failure(error.value);
      }
    }
    o := service.Transition(Rebased(r, s.env), LeaseFloor(s.env), budget);
  }
}
