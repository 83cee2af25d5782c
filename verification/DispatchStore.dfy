/** The receipt store as the object its callers share, and the supervisor that advances a receipt and reports frames in
    a fixed order (`dispatch_supervisor_evidence.py`, `dispatch_supervisor_runner.py`). */
module DispatchStore {
  import opened Wrappers
  import opened Approvals
  import opened DispatchReceipts
  import opened ReceiptHistory

  class EvidenceStore {
    var receipts: map<DispatchId, Receipt>
    var tombstones: map<DispatchId, Tombstone>

    ghost function Contents(): Store
      reads this
    {
      Store(receipts, tombstones)
    }

    constructor ()
      ensures Contents() == Store(map[], map[])
    {
      receipts, tombstones := map[], map[];
    }

    method ReserveReceipt(a: Reservation, now: Instant, budget: nat) returns (r: Result<Receipt, Error>)
      modifies this
      ensures Contents() == Next(old(Contents()), Step(ReserveOp(a), now, budget))
      ensures r == if Reserve(old(Contents()), a, now).Success? && budget == 0 then Failure(StoreError)
                   else Reserve(old(Contents()), a, now)
    {
      ghost var s := Contents();
      if a.identity.dispatchId in receipts {
        return Failure(PhaseError);
      }
      var receipt := Receipt(a.identity, a.leaseEpoch, a.holder, a.generation, a.posix, a.boot, Reserved, a.creator,
                             None, None, None, FloorSecond(now));
      Landed(s, Step(ReserveOp(a), now, budget));
      if budget == 0 {
        return Failure(StoreError);
      }
      receipts := receipts[receipt.identity.dispatchId := receipt];
      return Success(receipt);
    }

    /** The three `advance_to_…` functions, which differ in what they record. */
    method AdvanceReceipt(d: DispatchId, generation: GenerationId, a: Advance, now: Instant, budget: nat)
      returns (r: Result<Receipt, Error>)
      modifies this
      ensures Contents() == Next(old(Contents()), Step(AdvanceOp(d, generation, a), now, budget))
      ensures r == if AdvanceTo(old(Contents()), d, generation, a, now).Success? && budget == 0 then Failure(StoreError)
                   else AdvanceTo(old(Contents()), d, generation, a, now)
    {
      ghost var s := Contents();
      if d !in receipts {
        return Failure(FencingError);
      }
      var current := receipts[d];
      if current.generation != generation {
        return Failure(FencingError);
      }
      if current.phase == a.Target() || a.Target().Rank() != current.phase.Rank() + 1 {
        return Failure(PhaseError);
      }
      var updated := current.(phase := a.Target(), writtenAt := FloorSecond(now));
      match a {
        case ToSupervisorReady(p) => updated := updated.(supervisor := Some(p));
        case ToWorkerStarted(p, group) => updated := updated.(worker := Some(p), group := group);
        case ToFinalizing =>
      }
      Landed(s, Step(AdvanceOp(d, generation, a), now, budget));
      if budget == 0 {
        return Failure(StoreError);
      }
      receipts := receipts[updated.identity.dispatchId := updated];
      return Success(updated);
    }

    /** `write_finalizer_tombstone`: the tombstone first, then the receipt. */
    method WriteFinalizerTombstone(f: Finalization, now: Instant, budget: nat) returns (r: Result<Tombstone, Error>)
      modifies this
      ensures Contents() == Next(old(Contents()), Step(FinalizeOp(f), now, budget))
      ensures var plan := FinalizePlan(old(Contents()), f, now);
              r == if plan.Failure? then Failure(plan.error)
                   else if budget < |plan.value.0| then Failure(StoreError) else Success(plan.value.1)
    {
      ghost var s := Contents();
      var d := f.identity.dispatchId;
      if !f.allDone || d !in receipts {
        return Failure(PhaseError);
      }
      var receipt := receipts[d];
      if receipt.generation != f.generation {
        return Failure(FencingError);
      }
      if receipt.identity != f.identity {
        return Failure(PhaseError);
      }
      var finalized := receipt.(phase := Finalized, writtenAt := FloorSecond(now));
      if d in tombstones {
        var existing := tombstones[d];
        if existing.generation != f.generation {
          return Failure(FencingError);
        }
        if existing.identity != f.identity || existing.verdict != f.verdict {
          return Failure(PhaseError);
        }
        if receipt.phase.Finalized? {
          return Success(existing);
        }
        if !receipt.phase.Finalizing? {
          return Failure(PhaseError);
        }
        Landed(s, Step(FinalizeOp(f), now, budget));
        if budget == 0 {
          return Failure(StoreError);
        }
        receipts := receipts[receipt.identity.dispatchId := finalized];
        return Success(existing);
      }
      if !receipt.phase.Finalizing? {
        return Failure(PhaseError);
      }
      Landed(s, Step(FinalizeOp(f), now, budget));
      if budget == 0 {
        return Failure(StoreError);
      }
      var tombstone := Tombstone(f.identity, f.generation, f.verdict, FloorSecond(now));
      tombstones := tombstones[d := tombstone];
      if budget == 1 {
        return Failure(StoreError);
      }
      receipts := receipts[receipt.identity.dispatchId := finalized];
      return Success(tombstone);
    }
  }

  // ---- The supervisor ---------------------------------------------------------------------------------------------

  datatype Frame = ReadyFrame | FatalFrame | WorkerStartedFrame(pid: nat) | ResultFrame(end: WorkerEnd)

  datatype WorkerEnd = Completed | NonZeroExit | TimedOut | Cancelled | LaunchFailed

  /** What happens around one supervised dispatch: whether the worker can be launched and reported in time, how it ends,
      and which of the three receipt writes reach the disk. */
  datatype Course = Course(
    supervisor: Process, launched: bool, worker: Process, group: Option<nat>, inTime: bool, end: WorkerEnd,
    readyWrite: nat, startWrite: nat, finalWrite: nat, now: Instant)

  class Supervisor {
    const store: EvidenceStore
    var frames: seq<Frame>
    /** The worker has been handed its standard input. */
    var fed: bool

    constructor (shared: EvidenceStore)
      ensures store == shared && frames == [] && !fed
    {
      store, frames, fed := shared, [], false;
    }

    ghost predicate Reached(d: DispatchId, rank: nat)
      reads this, store
    {
      d in store.receipts && store.receipts[d].phase.Rank() >= rank
    }

    /** Every frame follows the durable phase it reports, and the worker is fed only after WORKER_STARTED is durable;
        the result of a worker that ran follows FINALIZING. */
    ghost predicate Ordered(d: DispatchId)
      reads this, store
    {
      && (ReadyFrame in frames ==> Reached(d, SupervisorReady.Rank()))
      && ((exists pid :: WorkerStartedFrame(pid) in frames) ==> Reached(d, WorkerStarted.Rank()))
      && (fed ==> Reached(d, WorkerStarted.Rank()))
      && (forall end :: ResultFrame(end) in frames ==> end.LaunchFailed? || Reached(d, Finalizing.Rank()))
    }

    /** One advance of the receipt, which succeeds exactly from the phase before, under the receipt's generation, and if it
        can be written; then the new phase and the process it names are on disk. */
    method Advance(d: DispatchId, generation: GenerationId, a: Advance, now: Instant, budget: nat) returns (ok: bool)
      requires Consistent(store.Contents())
      modifies store
      ensures Consistent(store.Contents()) && Evolves(old(store.Contents()), store.Contents())
      ensures ok <==>
        && d in old(store.receipts) && old(store.receipts)[d].generation == generation
        && Precedes(old(store.receipts)[d].phase, a) && budget >= 1
      ensures ok ==> d in store.receipts && store.receipts[d] == Advanced(old(store.receipts)[d], a, now)
      ensures !ok ==> store.Contents() == old(store.Contents())
    {
      ghost var s := store.Contents();
      NextKeeps(s, Step(AdvanceOp(d, generation, a), now, budget));
      AdvanceExactly(s, d, generation, a, now, budget);
      hide Next, Consistent, Evolves, OneStep, Precedes, Advanced;
      var advanced := store.AdvanceReceipt(d, generation, a, now, budget);
      return advanced.Success?;
    }

    /** The dispatch waits for this supervisor, and the supervisor can be put on record. */
    ghost predicate CanStart(receipts: map<DispatchId, Receipt>, d: DispatchId, generation: GenerationId, c: Course) {
      && d in receipts && receipts[d].generation == generation && receipts[d].phase.Reserved? && c.readyWrite >= 1
    }

    /** `_amain` with `_on_worker_started`; an exception of the store that nobody catches ends it without a result.
        A worker that is not reported in time is never fed, and its run ends without a result. */
    method Run(d: DispatchId, generation: GenerationId, c: Course) returns (code: nat)
      requires frames == [] && !fed && Consistent(store.Contents()) && !c.end.LaunchFailed?
      modifies this, store
      ensures Ordered(d) && Consistent(store.Contents()) && Evolves(old(store.Contents()), store.Contents())
      ensures var started := c.inTime && c.startWrite >= 1;
        (frames, code) ==
          if !CanStart(old(store.receipts), d, generation, c) then ([FatalFrame], 2)
          else if !c.launched then ([ReadyFrame, ResultFrame(LaunchFailed)], 1)
          else if !started then ([ReadyFrame], 3)
          else if c.finalWrite == 0 then ([ReadyFrame, WorkerStartedFrame(c.worker.pid)], 3)
          else ([ReadyFrame, WorkerStartedFrame(c.worker.pid), ResultFrame(c.end)], if c.end.Completed? then 0 else 1)
      ensures fed <==> |frames| >= 2 && frames[1].WorkerStartedFrame?
      ensures ReadyFrame in frames ==> d in store.receipts && store.receipts[d].supervisor == Some(c.supervisor)
      ensures fed ==> d in store.receipts && store.receipts[d].worker == Some(c.worker) && store.receipts[d].group == c.group
    {
      hide Next, Consistent, Evolves, OneStep;
      ghost var s0 := store.Contents();
      var ok := Advance(d, generation, ToSupervisorReady(c.supervisor), c.now, c.readyWrite);
      if !ok {
        frames := [FatalFrame];
        return 2;
      }
      frames := [ReadyFrame];
      if !c.launched {
        frames := [ReadyFrame, ResultFrame(LaunchFailed)];
        return 1;
      }
      ghost var s1 := store.Contents();
      code := RunWorker(d, generation, c);
      EvolvesThrough(s0, s1, store.Contents());
    }

    /** From the launch of the worker to the result frame. */
    method RunWorker(d: DispatchId, generation: GenerationId, c: Course) returns (code: nat)
      requires frames == [ReadyFrame] && !fed && Consistent(store.Contents()) && !c.end.LaunchFailed?
      requires d in store.receipts && store.receipts[d].phase.SupervisorReady? && store.receipts[d].generation == generation
      requires store.receipts[d].supervisor == Some(c.supervisor)
      modifies this, store
      ensures Ordered(d) && Consistent(store.Contents()) && Evolves(old(store.Contents()), store.Contents())
      ensures (frames, code) ==
        if !c.inTime || c.startWrite == 0 then ([ReadyFrame], 3)
        else if c.finalWrite == 0 then ([ReadyFrame, WorkerStartedFrame(c.worker.pid)], 3)
        else ([ReadyFrame, WorkerStartedFrame(c.worker.pid), ResultFrame(c.end)], if c.end.Completed? then 0 else 1)
      ensures fed <==> |frames| >= 2
      ensures d in store.receipts && store.receipts[d].supervisor == Some(c.supervisor)
      ensures fed ==> store.receipts[d].worker == Some(c.worker) && store.receipts[d].group == c.group
    {
      hide Next, Consistent, Evolves, OneStep;
      ghost var s0 := store.Contents();
      if c.inTime {
        var started := Advance(d, generation, ToWorkerStarted(c.worker, c.group), c.now, c.startWrite);
        if !started {
          return 3;
        }
        frames := [ReadyFrame, WorkerStartedFrame(c.worker.pid)];
        fed := true;
      } else {
        EvolvesTrivially(s0);
      }
      ghost var s1 := store.Contents();
      var finalizing := Advance(d, generation, ToFinalizing, c.now, c.finalWrite);
      EvolvesThrough(s0, s1, store.Contents());
      if !finalizing {
        return 3;
      }
      frames := [ReadyFrame, WorkerStartedFrame(c.worker.pid), ResultFrame(c.end)];
      return if c.end.Completed? then 0 else 1;
    }
  }

  lemma EvolvesTrivially(s: Store)
    ensures Evolves(s, s)
  {
  }

  lemma EvolvesThrough(s0: Store, s1: Store, s2: Store)
    requires Evolves(s0, s1) && Evolves(s1, s2)
    ensures Evolves(s0, s2)
  {
  }
}
