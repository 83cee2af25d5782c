/** Owner-loss retry receipts: reserved once for each next dispatch, advanced phase by phase, finalized tombstone first
    (`dispatch_supervisor_evidence.py`). */
module RetryReceipts {
  import opened Wrappers
  import opened Approvals

  type GenerationId(==, !new)
  type Incarnation(==, !new)
  type Digest(==, !new)

  /** The four phases that are ever stored, of the six in the source's enumeration. */
  datatype Phase = RetryReserved | RetryStarted | RetryFinalizing | RetryFinalized {
    function Rank(): nat {
      match this case RetryReserved => 2 case RetryStarted => 3 case RetryFinalizing => 4 case RetryFinalized => 5
    }
  }

  datatype Retry = Retry(
    taskId: TaskId, revision: int, failedAttempt: int, failedDispatch: DispatchId, recoveryEvent: EventId,
    nextAttempt: int, nextDispatch: DispatchId, nextEvent: EventId)

  /** At most three attempts, each retry the next one, under a dispatch id of its own. */
  predicate ValidRetry(p: Retry) {
    && p.revision >= 1 && p.failedAttempt >= 1 && 1 <= p.nextAttempt <= 3 && p.nextAttempt == p.failedAttempt + 1
    && p.nextDispatch != p.failedDispatch
  }

  datatype Receipt = Receipt(
    retry: Retry, generation: GenerationId, phase: Phase, creator: Incarnation, supervisor: Option<Incarnation>,
    worker: Option<Incarnation>, reservedAt: Instant, startedAt: Option<Instant>, finalizedAt: Option<Instant>,
    digest: Digest)

  predicate FieldsFit(r: Receipt) {
    && ValidRetry(r.retry)
    && (r.supervisor.Some? <==> r.phase.Rank() >= 3) && (r.worker.Some? <==> r.phase.Rank() >= 3)
    && (r.startedAt.Some? <==> r.phase.Rank() >= 3) && (r.finalizedAt.Some? <==> r.phase.Rank() == 5)
  }

  datatype Store = Store(receipts: map<DispatchId, Receipt>, tombstones: map<DispatchId, Receipt>)

  datatype Error = Invalid | PhaseError | FencingError | StoreError

  datatype FileWrite = PutTombstone(tombstone: Receipt) | PutReceipt(receipt: Receipt)

  datatype Op =
    | Reserve(retry: Retry, digest: Digest, creator: Incarnation)
    | Start(supervisor: Incarnation, worker: Incarnation)
    | BeginFinalizing
    | Finalize

  /** A call on one retry, with the caller's generation. */
  datatype RetryCall = RetryCall(dispatchId: DispatchId, generation: GenerationId, op: Op)

  /** `_enforce_retry_transition`. */
  function Enforce(current: Receipt, target: Phase, generation: GenerationId): Option<Error> {
    if current.generation != generation then Some(FencingError)
    else if target.Rank() != current.phase.Rank() + 1 then Some(PhaseError)
    else None
  }

  function PlanReserve(s: Store, d: DispatchId, generation: GenerationId, op: Op, now: Instant)
    : Result<(seq<FileWrite>, Receipt), Error>
    requires op.Reserve?
  {
    var proposed := Receipt(op.retry, generation, RetryReserved, op.creator, None, None, FloorSecond(now), None, None, op.digest);
    if !ValidRetry(op.retry) || op.retry.nextDispatch != d then Failure(Invalid)
    else if d !in s.receipts then Success(([PutReceipt(proposed)], proposed))
    else if s.receipts[d].digest != op.digest then Failure(PhaseError)
    else if s.receipts[d].generation != generation then Failure(FencingError)
    else if !s.receipts[d].phase.RetryReserved? then Failure(PhaseError)
    else Success(([], s.receipts[d]))
  }

  function PlanFinalize(s: Store, d: DispatchId, generation: GenerationId, now: Instant)
    : Result<(seq<FileWrite>, Receipt), Error>
  {
    if d !in s.receipts then Failure(FencingError)
    else
      var refused := Enforce(s.receipts[d], RetryFinalized, generation);
      if refused.Some? then Failure(refused.value)
      else
        var finalized := s.receipts[d].(phase := RetryFinalized, finalizedAt := Some(FloorSecond(now)));
        if d !in s.tombstones then Success(([PutTombstone(finalized), PutReceipt(finalized)], finalized))
        else if s.tombstones[d].digest != finalized.digest then Failure(PhaseError)
        else if s.tombstones[d].generation != generation then Failure(FencingError)
        else Success(([PutReceipt(finalized)], s.tombstones[d]))
  }

  function PlanAdvance(s: Store, d: DispatchId, generation: GenerationId, op: Op, now: Instant)
    : Result<(seq<FileWrite>, Receipt), Error>
    requires op.Start? || op.BeginFinalizing?
  {
    if d !in s.receipts then Failure(FencingError)
    else
      var refused := Enforce(s.receipts[d], if op.Start? then RetryStarted else RetryFinalizing, generation);
      if refused.Some? then Failure(refused.value)
      else
        var updated :=
          if op.Start? then s.receipts[d].(phase := RetryStarted, supervisor := Some(op.supervisor),
                                           worker := Some(op.worker), startedAt := Some(FloorSecond(now)))
          else s.receipts[d].(phase := RetryFinalizing);
        Success(([PutReceipt(updated)], updated))
  }

  /** The files a call writes in this order, and its answer; or why it refuses. */
  function Planned(s: Store, c: RetryCall, now: Instant): Result<(seq<FileWrite>, Receipt), Error> {
    match c.op
    case Reserve(_, _, _) => PlanReserve(s, c.dispatchId, c.generation, c.op, now)
    case Finalize => PlanFinalize(s, c.dispatchId, c.generation, now)
    case _ => PlanAdvance(s, c.dispatchId, c.generation, c.op, now)
  }

  function Put(s: Store, w: FileWrite): Store {
    match w
    case PutTombstone(t) => s.(tombstones := s.tombstones[t.retry.nextDispatch := t])
    case PutReceipt(r) => s.(receipts := s.receipts[r.retry.nextDispatch := r])
  }

  /** At most two files are written, of which the first `budget` reach the disk. */
  function Landed(s: Store, ws: seq<FileWrite>, budget: nat): Store {
    if ws == [] || budget == 0 then s
    else if |ws| == 1 || budget == 1 then Put(s, ws[0])
    else Put(Put(s, ws[0]), ws[1])
  }

  datatype Step = Step(call: RetryCall, now: Instant, budget: nat)

  function Next(s: Store, step: Step): Store {
    var planned := Planned(s, step.call, step.now);
    if planned.Failure? then s else Landed(s, planned.value.0, step.budget)
  }

  function Run(s: Store, steps: seq<Step>): Store
    decreases |steps|
  {
    if steps == [] then s else Run(Next(s, steps[0]), steps[1..])
  }

  // ---- The invariant ---------------------------------------------------------------------------------------------

  predicate ReceiptOk(s: Store, d: DispatchId)
    requires d in s.receipts
  {
    var r := s.receipts[d];
    r.retry.nextDispatch == d && FieldsFit(r) && (r.phase.RetryFinalized? ==> d in s.tombstones)
  }

  /** A tombstone is the receipt as it is, or will be, finalized; only the time of finalization may differ. */
  predicate TombstoneOk(s: Store, d: DispatchId)
    requires d in s.tombstones
  {
    && d in s.receipts && s.receipts[d].phase.Rank() >= 4
    && s.tombstones[d] == s.receipts[d].(phase := RetryFinalized, finalizedAt := s.tombstones[d].finalizedAt)
    && s.tombstones[d].finalizedAt.Some?
  }

  predicate Consistent(s: Store) {
    && (forall d :: d in s.receipts ==> ReceiptOk(s, d))
    && (forall d :: d in s.tombstones ==> TombstoneOk(s, d))
  }

  predicate SameBut(r: Receipt, r': Receipt) {
    && r'.retry == r.retry && r'.generation == r.generation && r'.creator == r.creator && r'.digest == r.digest
    && r'.reservedAt == r.reservedAt && r.phase.Rank() <= r'.phase.Rank()
    && (r.phase.Rank() >= 3 ==> r'.supervisor == r.supervisor && r'.worker == r.worker && r'.startedAt == r.startedAt)
  }

  predicate Evolves(s: Store, s': Store) {
    && (forall d :: d in s.receipts ==> d in s'.receipts && SameBut(s.receipts[d], s'.receipts[d]))
    && (forall d :: d in s.tombstones ==> d in s'.tombstones && s'.tombstones[d] == s.tombstones[d])
  }

  /** A single file replacement that fits the store. */
  predicate Fits(s: Store, w: FileWrite) {
    match w
    case PutTombstone(t) =>
      var d := t.retry.nextDispatch;
      && d !in s.tombstones && d in s.receipts && s.receipts[d].phase.RetryFinalizing? && t.finalizedAt.Some?
      && t == s.receipts[d].(phase := RetryFinalized, finalizedAt := t.finalizedAt)
    case PutReceipt(r) =>
      var d := r.retry.nextDispatch;
      && FieldsFit(r)
      && (r.phase.RetryFinalized? ==> d in s.tombstones)
      && (if d in s.receipts then SameBut(s.receipts[d], r) && r.phase.Rank() == s.receipts[d].phase.Rank() + 1
          else r.phase.RetryReserved?)
  }

  lemma PutKeeps(s: Store, w: FileWrite)
    requires Consistent(s) && Fits(s, w)
    ensures Consistent(Put(s, w)) && Evolves(s, Put(s, w))
  {
    var s' := Put(s, w);
    var d := if w.PutTombstone? then w.tombstone.retry.nextDispatch else w.receipt.retry.nextDispatch;
    forall e | e in s'.receipts ensures ReceiptOk(s', e) {
      if e != d { assert ReceiptOk(s, e); }
    }
    forall e | e in s'.tombstones ensures TombstoneOk(s', e) {
      if e in s.tombstones { assert TombstoneOk(s, e); }
    }
    hide ReceiptOk, TombstoneOk;
  }

  lemma PlannedFits(s: Store, c: RetryCall, now: Instant)
    requires Consistent(s) && Planned(s, c, now).Success?
    ensures var ws := Planned(s, c, now).value.0;
      && |ws| <= 2
      && (ws != [] ==> Fits(s, ws[0]))
      && (|ws| == 2 ==> Fits(Put(s, ws[0]), ws[1]))
  {
    if c.dispatchId in s.receipts { assert ReceiptOk(s, c.dispatchId); }
    if c.dispatchId in s.tombstones { assert TombstoneOk(s, c.dispatchId); }
    hide Consistent;
  }

  lemma EvolvesThrough(s0: Store, s1: Store, s2: Store)
    requires Evolves(s0, s1) && Evolves(s1, s2)
    ensures Evolves(s0, s2)
  {
  }

  lemma NextKeeps(s: Store, step: Step)
    requires Consistent(s)
    ensures Consistent(Next(s, step)) && Evolves(s, Next(s, step))
  {
    var planned := Planned(s, step.call, step.now);
    if planned.Success? {
      PlannedFits(s, step.call, step.now);
      var ws := planned.value.0;
      hide Planned, Fits, Consistent;
      if ws != [] {
        PutKeeps(s, ws[0]);
        if |ws| == 2 {
          PutKeeps(Put(s, ws[0]), ws[1]);
          EvolvesThrough(s, Put(s, ws[0]), Put(Put(s, ws[0]), ws[1]));
        }
      }
    }
  }

  /** Over any run, interrupted anywhere: the pair of files agrees, recorded identities never change, phases only rise,
      tombstones are never rewritten, and every stored retry is the next attempt, at most the third. */
  lemma {:induction false} RunKeeps(s: Store, steps: seq<Step>)
    requires Consistent(s)
    ensures Consistent(Run(s, steps)) && Evolves(s, Run(s, steps))
    decreases |steps|
  {
    hide Consistent, Next;
    if steps != [] {
      NextKeeps(s, steps[0]);
      RunKeeps(Next(s, steps[0]), steps[1..]);
    }
  }

  // ---- Finalization ----------------------------------------------------------------------------------------------

  /** On a consistent store a finalization is accepted exactly while the receipt is finalizing under the caller's
      generation; in particular it is refused once it has fully succeeded. */
  lemma WhoFinalizes(s: Store, d: DispatchId, generation: GenerationId, now: Instant)
    requires Consistent(s)
    ensures PlanFinalize(s, d, generation, now).Success? <==>
      d in s.receipts && s.receipts[d].generation == generation && s.receipts[d].phase.RetryFinalizing?
    ensures d in s.receipts && s.receipts[d].generation == generation && s.receipts[d].phase.RetryFinalized? ==>
      PlanFinalize(s, d, generation, now) == Failure(PhaseError)
  {
    if d in s.tombstones { assert TombstoneOk(s, d); }
  }

  /** An interrupted finalization is finished by repeating it at any later time: the tombstone stays as it was written,
      and the receipt becomes it, up to the time of finalization. */
  lemma RepeatFinishes(s: Store, d: DispatchId, generation: GenerationId, now: Instant, budget: nat, steps: seq<Step>, now': Instant)
    requires Consistent(s) && PlanFinalize(s, d, generation, now).Success?
    ensures
      var later := Run(Next(s, Step(RetryCall(d, generation, Finalize), now, budget)), steps);
      var last := Next(later, Step(RetryCall(d, generation, Finalize), now', 2));
      && d in last.receipts && last.receipts[d].phase.RetryFinalized? && d in last.tombstones
      && last.tombstones[d] == last.receipts[d].(finalizedAt := last.tombstones[d].finalizedAt)
      && (d in later.tombstones ==> last.tombstones[d] == later.tombstones[d])
  {
    var first, again := Step(RetryCall(d, generation, Finalize), now, budget), Step(RetryCall(d, generation, Finalize), now', 2);
    var later := Run(Next(s, first), steps);
    NextKeeps(s, first);
    RunKeeps(Next(s, first), steps);
    assert SameBut(s.receipts[d], Next(s, first).receipts[d]) && SameBut(Next(s, first).receipts[d], later.receipts[d]);
    assert ReceiptOk(later, d);
    hide Next, Run, Consistent, FieldsFit, PlanFinalize, TombstoneOk;
    FinalizingFinishes(later, d, generation, now');
  }

  /** A finalization of a receipt that is finalizing or already finalized leaves it finalized, like its tombstone. */
  lemma FinalizingFinishes(s: Store, d: DispatchId, generation: GenerationId, now: Instant)
    requires Consistent(s) && d in s.receipts && s.receipts[d].generation == generation
    requires s.receipts[d].phase.RetryFinalizing? || s.receipts[d].phase.RetryFinalized?
    ensures var last := Next(s, Step(RetryCall(d, generation, Finalize), now, 2));
      && d in last.receipts && last.receipts[d].phase.RetryFinalized? && d in last.tombstones
      && last.tombstones[d] == last.receipts[d].(finalizedAt := last.tombstones[d].finalizedAt)
      && (d in s.tombstones ==> last.tombstones[d] == s.tombstones[d])
  {
    var again := Step(RetryCall(d, generation, Finalize), now, 2);
    NextKeeps(s, again);
    WhoFinalizes(s, d, generation, now);
    var last := Next(s, again);
    assert last.receipts[d].phase.RetryFinalized? by {
      hide Consistent, Evolves, ReceiptOk;
    }
    assert ReceiptOk(last, d) && TombstoneOk(last, d);
    hide Next, Consistent, FieldsFit;
  }

  // ---- The store --------------------------------------------------------------------------------------------------

  class RetryStore {
    var receipts: map<DispatchId, Receipt>
    var tombstones: map<DispatchId, Receipt>

    ghost function Contents(): Store
      reads this
    {
      Store(receipts, tombstones)
    }

    constructor ()
      ensures Contents() == Store(map[], map[])
    {
      receipts, tombstones := map[], map[];
    }

    /** `reserve_retry_receipt`. */
    method ReserveRetry(retry: Retry, generation: GenerationId, digest: Digest, creator: Incarnation, now: Instant)
      returns (r: Result<Receipt, Error>)
      modifies this
      ensures var planned := PlanReserve(old(Contents()), retry.nextDispatch, generation, Reserve(retry, digest, creator), now);
        && Contents() == Next(old(Contents()), Step(RetryCall(retry.nextDispatch, generation, Reserve(retry, digest, creator)), now, 1))
        && r == if planned.Failure? then Failure(planned.error) else Success(planned.value.1)
    {
      if !ValidRetry(retry) {
        return Failure(Invalid);
      }
      var d := retry.nextDispatch;
      if d in receipts {
        var existing := receipts[d];
        if existing.digest != digest {
          return Failure(PhaseError);
        }
        if existing.generation != generation {
          return Failure(FencingError);
        }
        if existing.phase != RetryReserved {
          return Failure(PhaseError);
        }
        return Success(existing);
      }
      var proposed := Receipt(retry, generation, RetryReserved, creator, None, None, FloorSecond(now), None, None, digest);
      receipts := receipts[d := proposed];
      return Success(proposed);
    }

    /** `advance_retry_to_finalized`, of which only the first `budget` writes take place. */
    method FinalizeRetry(d: DispatchId, generation: GenerationId, now: Instant, budget: nat) returns (r: Result<Receipt, Error>)
      modifies this
      ensures var planned := PlanFinalize(old(Contents()), d, generation, now);
        && Contents() == Next(old(Contents()), Step(RetryCall(d, generation, Finalize), now, budget))
        && r == if planned.Failure? then Failure(planned.error)
                else if budget < |planned.value.0| then Failure(StoreError) else Success(planned.value.1)
    {
      if d !in receipts {
        return Failure(FencingError);
      }
      var current := receipts[d];
      if current.generation != generation {
        return Failure(FencingError);
      }
      if current.phase != RetryFinalizing {
        return Failure(PhaseError);
      }
      var finalized := current.(phase := RetryFinalized, finalizedAt := Some(FloorSecond(now)));
      if d in tombstones {
        var existing := tombstones[d];
        if existing.digest != finalized.digest {
          return Failure(PhaseError);
        }
        if existing.generation != generation {
          return Failure(FencingError);
        }
        if budget == 0 {
          return Failure(StoreError);
        }
        receipts := receipts[finalized.retry.nextDispatch := finalized];
        return Success(existing);
      }
      if budget == 0 {
        return Failure(StoreError);
      }
      tombstones := tombstones[finalized.retry.nextDispatch := finalized];
      if budget == 1 {
        return Failure(StoreError);
      }
      receipts := receipts[finalized.retry.nextDispatch := finalized];
      return Success(finalized);
    }

    /** `advance_retry_to_started` and `advance_retry_to_finalizing`. */
    method AdvanceRetry(d: DispatchId, generation: GenerationId, op: Op, now: Instant) returns (r: Result<Receipt, Error>)
      requires op.Start? || op.BeginFinalizing?
      modifies this
      ensures var planned := PlanAdvance(old(Contents()), d, generation, op, now);
        && Contents() == Next(old(Contents()), Step(RetryCall(d, generation, op), now, 1))
        && r == if planned.Failure? then Failure(planned.error) else Success(planned.value.1)
    {
      if d !in receipts {
        return Failure(FencingError);
      }
      var current := receipts[d];
      var target := if op.Start? then RetryStarted else RetryFinalizing;
      if current.generation != generation {
        return Failure(FencingError);
      }
      if current.phase.Rank() + 1 != target.Rank() {
        return Failure(PhaseError);
      }
      var updated := current.(phase := target);
      if op.Start? {
        updated := updated.(supervisor := Some(op.supervisor), worker := Some(op.worker));
        updated := updated.(startedAt := Some(FloorSecond(now)));
      }
      receipts := receipts[updated.retry.nextDispatch := updated];
      return Success(updated);
    }
  }
}
