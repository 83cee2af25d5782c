/** Where everything in a dispatch receipt and in a tombstone comes from, over whole runs, and when each call succeeds. */
module ReceiptHistory {
  import opened Wrappers
  import opened Approvals
  import opened DispatchReceipts

  // ---- Single calls -----------------------------------------------------------------------------------------------

  /** A reservation is the first receipt of its dispatch, or refused. */
  lemma ReserveExactly(s: Store, a: Reservation, now: Instant, budget: nat)
    ensures var d := a.identity.dispatchId;
      if d in s.receipts then Planned(s, ReserveOp(a), now) == Failure(PhaseError) && Next(s, Step(ReserveOp(a), now, budget)) == s
      else
        && Planned(s, ReserveOp(a), now).Success?
        && Next(s, Step(ReserveOp(a), now, budget)) ==
             if budget == 0 then s
             else s.(receipts := s.receipts[d := Receipt(
               a.identity, a.leaseEpoch, a.holder, a.generation, a.posix, a.boot, Reserved, a.creator, None, None, None,
               FloorSecond(now))])
  {
    if a.identity.dispatchId !in s.receipts { Landed(s, Step(ReserveOp(a), now, budget)); }
  }

  /** The phase that each advance starts from. */
  predicate Precedes(p: Phase, a: Advance) {
    match a
    case ToSupervisorReady(_) => p.Reserved?
    case ToWorkerStarted(_, _) => p.SupervisorReady?
    case ToFinalizing => p.WorkerStarted?
  }

  /** The receipt after an advance: the next phase, and the processes that the call names. */
  function Advanced(r: Receipt, a: Advance, now: Instant): Receipt {
    match a
    case ToSupervisorReady(p) => r.(phase := SupervisorReady, supervisor := Some(p), writtenAt := FloorSecond(now))
    case ToWorkerStarted(p, group) =>
      r.(phase := WorkerStarted, worker := Some(p), group := group, writtenAt := FloorSecond(now))
    case ToFinalizing => r.(phase := Finalizing, writtenAt := FloorSecond(now))
  }

  /** An advance under the receipt's generation, from the phase before, is stored when it can be written; under another
      generation or without a receipt it is fenced off, and from any other phase it is refused. */
  lemma AdvanceExactly(s: Store, d: DispatchId, generation: GenerationId, a: Advance, now: Instant, budget: nat)
    requires Consistent(s)
    ensures var planned, s' := Planned(s, AdvanceOp(d, generation, a), now), Next(s, Step(AdvanceOp(d, generation, a), now, budget));
      if d !in s.receipts || s.receipts[d].generation != generation then planned == Failure(FencingError) && s' == s
      else if !Precedes(s.receipts[d].phase, a) then planned == Failure(PhaseError) && s' == s
      else
        && planned.Success?
        && s' == if budget == 0 then s else s.(receipts := s.receipts[d := Advanced(s.receipts[d], a, now)])
  {
    if d in s.receipts { assert ReceiptOk(s, d); }
    if Planned(s, AdvanceOp(d, generation, a), now).Success? { Landed(s, Step(AdvanceOp(d, generation, a), now, budget)); }
  }

  /** A finalization of a finalizing receipt writes its tombstone and then the receipt; repeated, it finds the tombstone. */
  lemma FinalizeExactly(s: Store, f: Finalization, now: Instant)
    requires Consistent(s)
    ensures var d, planned, s' := f.identity.dispatchId, FinalizePlan(s, f, now), Next(s, Step(FinalizeOp(f), now, 2));
      if !f.allDone || d !in s.receipts then planned == Failure(PhaseError)
      else if s.receipts[d].generation != f.generation then planned == Failure(FencingError)
      else if s.receipts[d].identity != f.identity then planned == Failure(PhaseError)
      else if d in s.tombstones then
        if s.tombstones[d].verdict != f.verdict then planned == Failure(PhaseError)
        else
          && planned.Success? && planned.value.1 == s.tombstones[d]
          && s' == if s.receipts[d].phase.Finalized? then s else s.(receipts := s.receipts[d := FinalizedReceipt(s.receipts[d], now)])
      else if !s.receipts[d].phase.Finalizing? then planned == Failure(PhaseError)
      else
        var t := Tombstone(f.identity, f.generation, f.verdict, FloorSecond(now));
        && planned.Success? && planned.value.1 == t
        && s' == Store(s.receipts[d := FinalizedReceipt(s.receipts[d], now)], s.tombstones[d := t])
  {
    var d := f.identity.dispatchId;
    if d in s.receipts { assert ReceiptOk(s, d); }
    if d in s.tombstones { assert TombstoneOk(s, d); }
    if FinalizePlan(s, f, now).Success? { Landed(s, Step(FinalizeOp(f), now, 2)); }
  }

  function FinalizedReceipt(r: Receipt, now: Instant): Receipt { r.(phase := Finalized, writtenAt := FloorSecond(now)) }

  // ---- Runs -------------------------------------------------------------------------------------------------------

  predicate Asked(op: DispatchReceipts.Op, steps: seq<Step>) { exists i :: 0 <= i < |steps| && steps[i].op == op }

  /** The reservation that a receipt goes back to. */
  function ReservationOf(r: Receipt): Reservation {
    Reservation(r.identity, r.leaseEpoch, r.holder, r.generation, r.posix, r.boot, r.creator)
  }

  /** Every process in the receipt, its phase and its identity were named by a call for that dispatch. */
  predicate Sourced(r: Receipt, steps: seq<Step>) {
    var d := r.identity.dispatchId;
    && Asked(ReserveOp(ReservationOf(r)), steps)
    && (r.supervisor.Some? ==> Asked(AdvanceOp(d, r.generation, ToSupervisorReady(r.supervisor.value)), steps))
    && (r.worker.Some? ==> Asked(AdvanceOp(d, r.generation, ToWorkerStarted(r.worker.value, r.group)), steps))
    && (r.phase.Finalizing? || r.phase.Finalized? ==> Asked(AdvanceOp(d, r.generation, ToFinalizing), steps))
    && (r.supervisor.Some? <==> !r.phase.Reserved?)
    && (r.worker.Some? <==> !r.phase.Reserved? && !r.phase.SupervisorReady?)
    && (r.group.Some? ==> r.worker.Some?)
  }

  predicate SourcedTombstone(t: Tombstone, steps: seq<Step>) {
    Asked(FinalizeOp(Finalization(t.identity, t.generation, t.verdict, true)), steps)
  }

  predicate AllSourced(s: Store, steps: seq<Step>) {
    && (forall d :: d in s.receipts ==> s.receipts[d].identity.dispatchId == d && Sourced(s.receipts[d], steps))
    && (forall d :: d in s.tombstones ==> s.tombstones[d].identity.dispatchId == d && SourcedTombstone(s.tombstones[d], steps))
  }

  lemma AskedLater(op: DispatchReceipts.Op, steps: seq<Step>, step: Step)
    ensures Asked(op, steps) || step.op == op ==> Asked(op, steps + [step])
  {
    if Asked(op, steps) {
      var i :| 0 <= i < |steps| && steps[i].op == op;
      assert (steps + [step])[i].op == op;
    }
    if step.op == op { assert (steps + [step])[|steps|].op == op; }
  }

  lemma SourcedLater(r: Receipt, steps: seq<Step>, step: Step)
    requires Sourced(r, steps)
    ensures Sourced(r, steps + [step])
  {
    hide Asked;
    var d := r.identity.dispatchId;
    AskedLater(ReserveOp(ReservationOf(r)), steps, step);
    if r.supervisor.Some? { AskedLater(AdvanceOp(d, r.generation, ToSupervisorReady(r.supervisor.value)), steps, step); }
    if r.worker.Some? { AskedLater(AdvanceOp(d, r.generation, ToWorkerStarted(r.worker.value, r.group)), steps, step); }
    AskedLater(AdvanceOp(d, r.generation, ToFinalizing), steps, step);
  }

  /** A file that a call writes is sourced by the calls before it and by itself. */
  predicate SourcedWrite(w: FileWrite, steps: seq<Step>) {
    match w case PutReceipt(r) => Sourced(r, steps) case PutTombstone(t) => SourcedTombstone(t, steps)
  }

  lemma ReserveSourced(s: Store, a: Reservation, step: Step, steps: seq<Step>)
    requires step.op == ReserveOp(a) && Planned(s, step.op, step.now).Success?
    ensures forall w :: w in Planned(s, step.op, step.now).value ==> SourcedWrite(w, steps + [step])
  {
    hide Asked;
    AskedLater(ReserveOp(a), steps, step);
    var r := Reserve(s, a, step.now).value;
    assert ReservationOf(r) == a;
  }

  lemma AdvanceSourced(s: Store, d: DispatchId, generation: GenerationId, a: Advance, step: Step, steps: seq<Step>)
    requires step.op == AdvanceOp(d, generation, a) && Planned(s, step.op, step.now).Success? && Consistent(s) && AllSourced(s, steps)
    ensures forall w :: w in Planned(s, step.op, step.now).value ==> SourcedWrite(w, steps + [step])
  {
    hide Asked, Consistent;
    AskedLater(AdvanceOp(d, generation, a), steps, step);
    SourcedLater(s.receipts[d], steps, step);
  }

  lemma FinalizeSourced(s: Store, f: Finalization, step: Step, steps: seq<Step>)
    requires step.op == FinalizeOp(f) && Planned(s, step.op, step.now).Success? && AllSourced(s, steps)
    ensures forall w :: w in Planned(s, step.op, step.now).value ==> SourcedWrite(w, steps + [step])
  {
    hide Asked;
    AskedLater(FinalizeOp(f), steps, step);
    SourcedLater(s.receipts[f.identity.dispatchId], steps, step);
  }

  lemma PlannedSourced(s: Store, step: Step, steps: seq<Step>)
    requires Planned(s, step.op, step.now).Success? && Consistent(s) && AllSourced(s, steps)
    ensures forall w :: w in Planned(s, step.op, step.now).value ==> SourcedWrite(w, steps + [step])
  {
    hide Planned, Consistent, AllSourced, SourcedWrite;
    match step.op
    case ReserveOp(a) => ReserveSourced(s, a, step, steps);
    case AdvanceOp(d, generation, a) => AdvanceSourced(s, d, generation, a, step, steps);
    case FinalizeOp(f) => FinalizeSourced(s, f, step, steps);
  }

  lemma AllSourcedLater(s: Store, steps: seq<Step>, step: Step)
    requires AllSourced(s, steps)
    ensures AllSourced(s, steps + [step])
  {
    hide Sourced, Asked;
    forall d | d in s.receipts ensures Sourced(s.receipts[d], steps + [step]) { SourcedLater(s.receipts[d], steps, step); }
    forall d | d in s.tombstones ensures SourcedTombstone(s.tombstones[d], steps + [step]) {
      var t := s.tombstones[d];
      AskedLater(FinalizeOp(Finalization(t.identity, t.generation, t.verdict, true)), steps, step);
    }
  }

  lemma {:induction false} PutAllSourced(s: Store, ws: seq<FileWrite>, steps: seq<Step>)
    requires AllSourced(s, steps) && forall w :: w in ws ==> SourcedWrite(w, steps)
    ensures AllSourced(PutAll(s, ws), steps)
    decreases |ws|
  {
    hide Sourced, SourcedTombstone;
    if ws != [] {
      assert SourcedWrite(ws[0], steps);
      PutAllSourced(Put(s, ws[0]), ws[1..], steps);
    }
  }

  lemma NextSourced(s: Store, step: Step, steps: seq<Step>)
    requires Consistent(s) && AllSourced(s, steps)
    ensures AllSourced(Next(s, step), steps + [step])
  {
    hide Consistent, AllSourced, Planned, SourcedWrite;
    AllSourcedLater(s, steps, step);
    if Planned(s, step.op, step.now).Success? {
      PlannedSourced(s, step, steps);
      var ws := Planned(s, step.op, step.now).value;
      PutAllSourced(s, if step.budget < |ws| then ws[..step.budget] else ws, steps + [step]);
    }
  }

  lemma {:induction false} RunSourced(s: Store, past: seq<Step>, steps: seq<Step>)
    requires Consistent(s) && AllSourced(s, past)
    ensures AllSourced(DispatchReceipts.Run(s, steps), past + steps)
    decreases |steps|
  {
    hide Consistent, AllSourced, Next, Evolves, OneStep;
    if steps == [] {
      assert past + steps == past;
    } else {
      NextKeeps(s, steps[0]);
      NextSourced(s, steps[0], past);
      RunSourced(Next(s, steps[0]), past + [steps[0]], steps[1..]);
      assert past + [steps[0]] + steps[1..] == past + steps;
    }
  }

  /** Over whole runs from an empty store, whatever was interrupted: a stored receipt has the identity, lease, host and
      creator of a reservation of that dispatch, the supervisor of a call that reported it ready, the worker and group of a
      call that reported it started, all under its own generation, and a tombstone says what a finalization said. */
  lemma StoredWasAsked(steps: seq<Step>)
    ensures AllSourced(DispatchReceipts.Run(Store(map[], map[]), steps), steps)
  {
    var empty: seq<Step> := [];
    RunSourced(Store(map[], map[]), empty, steps);
    assert empty + steps == steps;
  }
}
