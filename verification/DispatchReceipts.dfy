/** Dispatch receipts and finalizer tombstones: a forward-only phase machine fenced by generations, and a two-file
    finalization that survives interruption (`dispatch_supervisor_evidence.py`). */
module DispatchReceipts {
  import opened Wrappers
  import opened Approvals

  type HolderId(==, !new)
  type GenerationId(==, !new)
  type BootId(==, !new)
  type Winner(==, !new)

  /** The five phases, in order. */
  datatype Phase = Reserved | SupervisorReady | WorkerStarted | Finalizing | Finalized {
    function Rank(): nat {
      match this case Reserved => 0 case SupervisorReady => 1 case WorkerStarted => 2 case Finalizing => 3 case Finalized => 4
    }
  }

  /** One incarnation of a process. */
  datatype Process = Process(pid: nat, created: int)

  datatype Identity = Identity(taskId: TaskId, revision: int, attempt: int, dispatchId: DispatchId)

  datatype Receipt = Receipt(
    identity: Identity, leaseEpoch: int, holder: HolderId, generation: GenerationId, posix: bool, boot: BootId,
    phase: Phase, creator: Process, supervisor: Option<Process>, worker: Option<Process>, group: Option<nat>,
    writtenAt: Instant)

  /** A field of a phase that is not reached yet is absent. */
  predicate FieldsFit(r: Receipt) {
    && (r.supervisor.Some? <==> r.phase.Rank() >= 1)
    && (r.worker.Some? <==> r.phase.Rank() >= 2)
    && (r.group.Some? ==> r.phase.Rank() >= 2)
  }

  /** What a finalization says about the dispatch; the three completion flags of a tombstone are always true. */
  datatype Verdict = Verdict(winner: Winner, failure: Option<Reason>)

  datatype Tombstone = Tombstone(identity: Identity, generation: GenerationId, verdict: Verdict, finalizedAt: Instant)

  datatype Store = Store(receipts: map<DispatchId, Receipt>, tombstones: map<DispatchId, Tombstone>)

  datatype Error = PhaseError | FencingError | StoreError

  // ---- Single-file steps -----------------------------------------------------------------------------------------

  datatype Reservation = Reservation(
    identity: Identity, leaseEpoch: int, holder: HolderId, generation: GenerationId, posix: bool, boot: BootId,
    creator: Process)

  /** What an advance records besides the phase. */
  datatype Advance = ToSupervisorReady(supervisor: Process) | ToWorkerStarted(worker: Process, group: Option<nat>) | ToFinalizing {
    function Target(): Phase {
      match this
      case ToSupervisorReady(_) => SupervisorReady
      case ToWorkerStarted(_, _) => WorkerStarted
      case ToFinalizing => Finalizing
    }
  }

  function Reserve(s: Store, a: Reservation, now: Instant): Result<Receipt, Error> {
    if a.identity.dispatchId in s.receipts then Failure(PhaseError)
    else Success(Receipt(a.identity, a.leaseEpoch, a.holder, a.generation, a.posix, a.boot, Reserved, a.creator,
                         None, None, None, FloorSecond(now)))
  }

  /** `_enforce_transition`. */
  function Enforce(current: Receipt, target: Phase, generation: GenerationId): Option<Error> {
    if current.generation != generation then Some(FencingError)
    else if current.phase == target then Some(PhaseError)
    else if target.Rank() != current.phase.Rank() + 1 then Some(PhaseError)
    else None
  }

  function Recorded(r: Receipt, a: Advance, now: Instant): Receipt {
    var moved := r.(phase := a.Target(), writtenAt := FloorSecond(now));
    match a
    case ToSupervisorReady(p) => moved.(supervisor := Some(p))
    case ToWorkerStarted(p, group) => moved.(worker := Some(p), group := group)
    case ToFinalizing => moved
  }

  function AdvanceTo(s: Store, d: DispatchId, generation: GenerationId, a: Advance, now: Instant): Result<Receipt, Error> {
    if d !in s.receipts then Failure(FencingError)
    else
      var refused := Enforce(s.receipts[d], a.Target(), generation);
      if refused.Some? then Failure(refused.value) else Success(Recorded(s.receipts[d], a, now))
  }

  // ---- Finalization ----------------------------------------------------------------------------------------------

  datatype Finalization = Finalization(identity: Identity, generation: GenerationId, verdict: Verdict, allDone: bool)

  datatype FileWrite = PutTombstone(tombstone: Tombstone) | PutReceipt(receipt: Receipt)

  /** The files `write_finalizer_tombstone` writes in this order, and its answer; or why it refuses. */
  function FinalizePlan(s: Store, f: Finalization, now: Instant): Result<(seq<FileWrite>, Tombstone), Error> {
    var d := f.identity.dispatchId;
    if !f.allDone then Failure(PhaseError)
    else if d !in s.receipts then Failure(PhaseError)
    else
      var r := s.receipts[d];
      var finalized := PutReceipt(r.(phase := Finalized, writtenAt := FloorSecond(now)));
      if r.generation != f.generation then Failure(FencingError)
      else if r.identity != f.identity then Failure(PhaseError)
      else if d in s.tombstones then
        var t := s.tombstones[d];
        if t.generation != f.generation then Failure(FencingError)
        else if t.identity != f.identity || t.verdict != f.verdict then Failure(PhaseError)
        else if r.phase.Finalized? then Success(([], t))
        else if r.phase.Finalizing? then Success(([finalized], t))
        else Failure(PhaseError)
      else if !r.phase.Finalizing? then Failure(PhaseError)
      else
        var t := Tombstone(f.identity, f.generation, f.verdict, FloorSecond(now));
        Success(([PutTombstone(t), finalized], t))
  }

  function Put(s: Store, w: FileWrite): Store {
    match w
    case PutTombstone(t) => s.(tombstones := s.tombstones[t.identity.dispatchId := t])
    case PutReceipt(r) => s.(receipts := s.receipts[r.identity.dispatchId := r])
  }

  function PutAll(s: Store, ws: seq<FileWrite>): Store
    decreases |ws|
  {
    if ws == [] then s else PutAll(Put(s, ws[0]), ws[1..])
  }

  // ---- Steps and runs --------------------------------------------------------------------------------------------

  datatype Op =
    | ReserveOp(reservation: Reservation)
    | AdvanceOp(dispatchId: DispatchId, generation: GenerationId, advance: Advance)
    | FinalizeOp(finalization: Finalization)

  /** A call at a time, of which only the first `budget` file replacements take place. */
  datatype Step = Step(op: Op, now: Instant, budget: nat)

  function Planned(s: Store, op: Op, now: Instant): Result<seq<FileWrite>, Error> {
    match op
    case ReserveOp(a) => (var r :- Reserve(s, a, now); Success([PutReceipt(r)]))
    case AdvanceOp(d, generation, a) => (var r :- AdvanceTo(s, d, generation, a, now); Success([PutReceipt(r)]))
    case FinalizeOp(f) => (var p :- FinalizePlan(s, f, now); Success(p.0))
  }

  function Next(s: Store, step: Step): Store {
    match Planned(s, step.op, step.now)
    case Failure(_) => s
    case Success(ws) => PutAll(s, if step.budget < |ws| then ws[..step.budget] else ws)
  }

  function Run(s: Store, steps: seq<Step>): Store
    decreases |steps|
  {
    if steps == [] then s else Run(Next(s, steps[0]), steps[1..])
  }

  // ---- The invariant ---------------------------------------------------------------------------------------------

  predicate ReceiptOk(s: Store, d: DispatchId)
    requires d in s.receipts
  {
    var r := s.receipts[d];
    r.identity.dispatchId == d && FieldsFit(r) && (r.phase.Finalized? ==> d in s.tombstones)
  }

  /** A tombstone stands for a receipt of the same identity and generation that is at least finalizing. */
  predicate TombstoneOk(s: Store, d: DispatchId)
    requires d in s.tombstones
  {
    && d in s.receipts
    && s.tombstones[d].identity == s.receipts[d].identity && s.tombstones[d].generation == s.receipts[d].generation
    && s.receipts[d].phase.Rank() >= Finalizing.Rank()
  }

  predicate Consistent(s: Store) {
    && (forall d :: d in s.receipts ==> ReceiptOk(s, d))
    && (forall d :: d in s.tombstones ==> TombstoneOk(s, d))
  }

  predicate SameBut(r: Receipt, r': Receipt) {
    && r'.identity == r.identity && r'.generation == r.generation && r'.creator == r.creator && r'.boot == r.boot
    && r'.leaseEpoch == r.leaseEpoch && r'.holder == r.holder && r'.posix == r.posix
    && (r.supervisor.Some? ==> r'.supervisor == r.supervisor)
    && (r.worker.Some? ==> r'.worker == r.worker && r'.group == r.group)
    && r.phase.Rank() <= r'.phase.Rank()
  }

  /** Receipts only move forward and never change what is recorded; tombstones never change at all. */
  predicate Evolves(s: Store, s': Store) {
    && (forall d :: d in s.receipts ==> d in s'.receipts && SameBut(s.receipts[d], s'.receipts[d]))
    && (forall d :: d in s.tombstones ==> d in s'.tombstones && s'.tombstones[d] == s.tombstones[d])
  }

  /** A single call moves every receipt by at most one phase, and changes none of another dispatch. */
  ghost predicate OneStep(s: Store, s': Store, d: DispatchId) {
    && (forall e :: e in s.receipts && e in s'.receipts ==> s'.receipts[e].phase.Rank() <= s.receipts[e].phase.Rank() + 1)
    && (forall e :: e in s'.receipts && e !in s.receipts ==> s'.receipts[e].phase.Reserved?)
    && (forall e :: e != d ==> (e in s'.receipts <==> e in s.receipts) && (e in s'.tombstones <==> e in s.tombstones))
    && (forall e :: e != d && e in s.receipts && e in s'.receipts ==> s'.receipts[e] == s.receipts[e])
  }

  function Dispatch(op: Op): DispatchId {
    match op
    case ReserveOp(a) => a.identity.dispatchId
    case AdvanceOp(d, _, _) => d
    case FinalizeOp(f) => f.identity.dispatchId
  }

  /** A single file replacement that fits the store. */
  ghost predicate Fits(s: Store, w: FileWrite) {
    match w
    case PutTombstone(t) =>
      var d := t.identity.dispatchId;
      && d !in s.tombstones && d in s.receipts && s.receipts[d].phase.Finalizing?
      && s.receipts[d].identity == t.identity && s.receipts[d].generation == t.generation
    case PutReceipt(r) =>
      var d := r.identity.dispatchId;
      && FieldsFit(r)
      && (r.phase.Finalized? ==> d in s.tombstones)
      && (if d in s.receipts then SameBut(s.receipts[d], r) && r.phase.Rank() == s.receipts[d].phase.Rank() + 1
          else r.phase.Reserved?)
  }

  function Of(w: FileWrite): DispatchId {
    if w.PutTombstone? then w.tombstone.identity.dispatchId else w.receipt.identity.dispatchId
  }

  lemma PutKeeps(s: Store, w: FileWrite)
    requires Consistent(s) && Fits(s, w)
    ensures Consistent(Put(s, w)) && Evolves(s, Put(s, w)) && OneStep(s, Put(s, w), Of(w))
  {
    PutStaysConsistent(s, w);
    hide ReceiptOk, TombstoneOk, FieldsFit, Consistent;
  }

  lemma PutStaysConsistent(s: Store, w: FileWrite)
    requires Consistent(s) && Fits(s, w)
    ensures Consistent(Put(s, w))
  {
    var s' := Put(s, w);
    forall d | d in s'.receipts ensures ReceiptOk(s', d) {
      if d != Of(w) { assert ReceiptOk(s, d); }
    }
    forall d | d in s'.tombstones ensures TombstoneOk(s', d) {
      if d in s.tombstones { assert TombstoneOk(s, d); }
    }
    hide ReceiptOk, TombstoneOk;
  }

  /** Every plan is a fitting write, or a tombstone followed by the last receipt. */
  lemma PlannedFits(s: Store, op: Op, now: Instant)
    requires Consistent(s) && Planned(s, op, now).Success?
    ensures var ws := Planned(s, op, now).value;
      && |ws| <= 2
      && (ws != [] ==> Fits(s, ws[0]) && Of(ws[0]) == Dispatch(op))
      && (|ws| == 2 ==> ws[0].PutTombstone? && Fits(Put(s, ws[0]), ws[1]) && Of(ws[1]) == Dispatch(op))
  {
    match op
    case ReserveOp(_) =>
    case AdvanceOp(d, _, _) =>
      if d in s.receipts { assert ReceiptOk(s, d); }
    case FinalizeOp(f) =>
      var d := f.identity.dispatchId;
      assert ReceiptOk(s, d);
  }

  lemma OnePut(s: Store, w: FileWrite)
    ensures PutAll(s, [w]) == Put(s, w)
  {
    hide Put;
    assert PutAll(Put(s, w), [w][1..]) == Put(s, w);
  }

  lemma Landed(s: Store, step: Step)
    requires Planned(s, step.op, step.now).Success? && |Planned(s, step.op, step.now).value| <= 2
    ensures var ws := Planned(s, step.op, step.now).value;
      Next(s, step) == if step.budget == 0 || ws == [] then s
                       else if step.budget == 1 || |ws| == 1 then Put(s, ws[0])
                       else Put(Put(s, ws[0]), ws[1])
  {
    var ws := Planned(s, step.op, step.now).value;
    hide Planned, Put;
    var cut := if step.budget < |ws| then ws[..step.budget] else ws;
    if step.budget == 0 || ws == [] {
      assert cut == [];
    } else if step.budget == 1 || |ws| == 1 {
      assert cut == [ws[0]];
      OnePut(s, ws[0]);
    } else {
      assert cut == [ws[0], ws[1]] && cut[1..] == [ws[1]];
      assert PutAll(s, cut) == PutAll(Put(s, ws[0]), [ws[1]]);
      OnePut(Put(s, ws[0]), ws[1]);
    }
  }

  /** Every call, interrupted or not, keeps the store consistent; no receipt moves back, forgets or changes what it
      recorded, and no tombstone is ever rewritten. */
  lemma NextKeeps(s: Store, step: Step)
    requires Consistent(s)
    ensures Consistent(Next(s, step)) && Evolves(s, Next(s, step)) && OneStep(s, Next(s, step), Dispatch(step.op))
  {
    var planned := Planned(s, step.op, step.now);
    if planned.Success? {
      PlannedFits(s, step.op, step.now);
      Landed(s, step);
      var ws := planned.value;
      hide Planned, Next, Fits, Consistent, Evolves, OneStep;
      SameEvolves(s);
      if ws != [] {
        PutKeeps(s, ws[0]);
        if |ws| == 2 {
          var s1 := Put(s, ws[0]);
          PutKeeps(s1, ws[1]);
          Compose(s, s1, Put(s1, ws[1]), Dispatch(step.op));
        }
      }
    }
    SameEvolves(s);
    hide Planned, Consistent, Evolves, OneStep;
  }

  lemma SameEvolves(s: Store)
    ensures Evolves(s, s) && forall d :: OneStep(s, s, d)
  {
  }

  lemma Compose(s: Store, s1: Store, s2: Store, d: DispatchId)
    requires Evolves(s, s1) && Evolves(s1, s2) && OneStep(s, s1, d) && OneStep(s1, s2, d) && s1.receipts == s.receipts
    ensures Evolves(s, s2) && OneStep(s, s2, d)
  {
    hide SameBut;
  }

  lemma {:induction false} RunKeeps(s: Store, steps: seq<Step>)
    requires Consistent(s)
    ensures Consistent(Run(s, steps)) && Evolves(s, Run(s, steps))
    decreases |steps|
  {
    hide Consistent, Next, OneStep;
    if steps != [] {
      NextKeeps(s, steps[0]);
      RunKeeps(Next(s, steps[0]), steps[1..]);
    }
  }

  // ---- Finalization survives interruption -------------------------------------------------------------------------

  /** On a consistent store, the answer to a finalization is read off the receipt and, if there is one, the tombstone:
      the refusals for inconsistent pairs of files never occur. */
  lemma WhoFinalizes(s: Store, f: Finalization, now: Instant)
    requires Consistent(s)
    ensures var d := f.identity.dispatchId;
      FinalizePlan(s, f, now).Success? <==>
        && f.allDone && d in s.receipts && s.receipts[d].generation == f.generation && s.receipts[d].identity == f.identity
        && (if d in s.tombstones then s.tombstones[d].verdict == f.verdict else s.receipts[d].phase.Finalizing?)
  {
    var d := f.identity.dispatchId;
    if d in s.tombstones { assert TombstoneOk(s, d); }
    if d in s.receipts { assert ReceiptOk(s, d); }
  }

  /** A finalization that got its tombstone down before it was interrupted is finished by repeating it, at any later
      time and after anything else happened: same tombstone, receipt finalized. */
  lemma RepeatFinishes(s: Store, f: Finalization, now: Instant, budget: nat, steps: seq<Step>, now': Instant)
    requires Consistent(s) && FinalizePlan(s, f, now).Success? && budget >= 1
    ensures
      var d := f.identity.dispatchId;
      var later := Run(Next(s, Step(FinalizeOp(f), now, budget)), steps);
      && FinalizePlan(later, f, now').Success?
      && d in later.tombstones && FinalizePlan(later, f, now').value.1 == later.tombstones[d]
      && later.tombstones[d] == FinalizePlan(s, f, now).value.1
      && var last := Next(later, Step(FinalizeOp(f), now', 1));
         d in last.receipts && last.receipts[d].phase.Finalized? && last.tombstones == later.tombstones
  {
    var d := f.identity.dispatchId;
    var step := Step(FinalizeOp(f), now, budget);
    TombstoneIsDown(s, f, now, budget);
    NextKeeps(s, step);
    var s1 := Next(s, step);
    RunKeeps(s1, steps);
    var later := Run(s1, steps);
    assert TombstoneOk(s1, d) && ReceiptOk(later, d) && TombstoneOk(later, d);
    hide Run, Next, Consistent, ReceiptOk;
    FinishPlan(later, f, now');
  }

  lemma TombstoneIsDown(s: Store, f: Finalization, now: Instant, budget: nat)
    requires Consistent(s) && FinalizePlan(s, f, now).Success? && budget >= 1
    ensures var s1, t := Next(s, Step(FinalizeOp(f), now, budget)), FinalizePlan(s, f, now).value.1;
      f.identity.dispatchId in s1.tombstones && s1.tombstones[f.identity.dispatchId] == t
      && t.identity == f.identity && t.generation == f.generation && t.verdict == f.verdict && f.allDone
  {
    PlannedFits(s, FinalizeOp(f), now);
    Landed(s, Step(FinalizeOp(f), now, budget));
  }

  lemma FinishPlan(s: Store, f: Finalization, now: Instant)
    requires f.allDone && var d := f.identity.dispatchId;
      && d in s.tombstones && TombstoneOk(s, d) && s.tombstones[d].identity == f.identity
      && s.tombstones[d].generation == f.generation && s.tombstones[d].verdict == f.verdict
    ensures var d := f.identity.dispatchId;
      && FinalizePlan(s, f, now).Success? && FinalizePlan(s, f, now).value.1 == s.tombstones[d]
      && var last := Next(s, Step(FinalizeOp(f), now, 1));
         d in last.receipts && last.receipts[d].phase.Finalized? && last.tombstones == s.tombstones
  {
    Landed(s, Step(FinalizeOp(f), now, 1));
  }

  /** Over whole runs from an empty store: the pair of files is consistent, whatever was interrupted. */
  lemma FilesAgree(steps: seq<Step>, d: DispatchId)
    ensures var s := Run(Store(map[], map[]), steps);
      && (d in s.tombstones ==>
            && d in s.receipts && s.receipts[d].identity == s.tombstones[d].identity
            && s.receipts[d].generation == s.tombstones[d].generation
            && (s.receipts[d].phase.Finalizing? || s.receipts[d].phase.Finalized?))
      && (d in s.receipts && s.receipts[d].phase.Finalized? ==> d in s.tombstones)
  {
    var s := Run(Store(map[], map[]), steps);
    RunKeeps(Store(map[], map[]), steps);
    if d in s.tombstones { assert TombstoneOk(s, d); }
    if d in s.receipts { assert ReceiptOk(s, d); }
  }
}
