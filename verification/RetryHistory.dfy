/** Where everything in a retry receipt comes from, over whole runs, and what each call on it answers. */
module RetryHistory {
  import opened Wrappers
  import opened Approvals
  import opened RetryReceipts

  // ---- Single calls -----------------------------------------------------------------------------------------------

  /** The next attempt of the same task under another dispatch id, the third at most. */
  predicate IsNextAttempt(p: Retry) {
    && p.revision >= 1 && (p.nextAttempt == 2 || p.nextAttempt == 3) && p.nextAttempt == p.failedAttempt + 1
    && p.nextDispatch != p.failedDispatch
  }

  /** What a fresh reservation stores. */
  function Reservation(retry: Retry, generation: GenerationId, digest: Digest, creator: Incarnation, now: Instant): Receipt {
    Receipt(retry, generation, RetryReserved, creator, None, None, FloorSecond(now), None, None, digest)
  }

  /** A reservation is stored if there is none for its dispatch yet.  Otherwise nothing is written, and the call gets what is
      stored if that has its digest and generation and is still only reserved. */
  lemma ReserveExactly(s: Store, retry: Retry, generation: GenerationId, digest: Digest, creator: Incarnation, now: Instant,
                       budget: nat)
    ensures var d := retry.nextDispatch;
      var call := RetryCall(d, generation, Reserve(retry, digest, creator));
      var planned, s' := Planned(s, call, now), Next(s, Step(call, now, budget));
      if !IsNextAttempt(retry) then planned == Failure(Invalid) && s' == s
      else if d !in s.receipts then
        && planned.Success? && planned.value.1 == Reservation(retry, generation, digest, creator, now)
        && s' == if budget == 0 then s else s.(receipts := s.receipts[d := planned.value.1])
      else
        && s' == s
        && if s.receipts[d].digest != digest then planned == Failure(PhaseError)
           else if s.receipts[d].generation != generation then planned == Failure(FencingError)
           else if s.receipts[d].phase != RetryReserved then planned == Failure(PhaseError)
           else planned.Success? && planned.value.1 == s.receipts[d]
  {
  }

  /** Repeating a reservation at any time, as long as nothing else has happened to it, gives the stored receipt. */
  lemma RepeatedReservation(s: Store, retry: Retry, generation: GenerationId, digest: Digest, creator: Incarnation,
                            first: Instant, again: Instant)
    requires IsNextAttempt(retry) && retry.nextDispatch !in s.receipts
    ensures var call := RetryCall(retry.nextDispatch, generation, Reserve(retry, digest, creator));
      var s' := Next(s, Step(call, first, 1));
      && Planned(s', call, again).Success?
      && Planned(s', call, again).value.1 == Reservation(retry, generation, digest, creator, first)
      && Next(s', Step(call, again, 1)) == s'
  {
    var s' := Next(s, Step(RetryCall(retry.nextDispatch, generation, Reserve(retry, digest, creator)), first, 1));
    ReserveExactly(s, retry, generation, digest, creator, first, 1);
    ReserveExactly(s', retry, generation, digest, creator, again, 1);
    hide Planned, Next;
  }

  /** The comparison is of digests, not of contents: a reservation of another retry under the digest of the stored one is
      not refused, and gets the stored one. */
  lemma OtherContentsAnswered(s: Store, retry: Retry, other: Retry, generation: GenerationId, digest: Digest,
                              creator: Incarnation, another: Incarnation, now: Instant, again: Instant)
    requires IsNextAttempt(retry) && IsNextAttempt(other) && retry.nextDispatch == other.nextDispatch
    requires retry.nextDispatch !in s.receipts
    ensures var d := retry.nextDispatch;
      var s' := Next(s, Step(RetryCall(d, generation, Reserve(retry, digest, creator)), now, 1));
      var planned := Planned(s', RetryCall(d, generation, Reserve(other, digest, another)), again);
      planned.Success? && planned.value.1 == Reservation(retry, generation, digest, creator, now)
  {
    var d := retry.nextDispatch;
    var s' := Next(s, Step(RetryCall(d, generation, Reserve(retry, digest, creator)), now, 1));
    ReserveExactly(s, retry, generation, digest, creator, now, 1);
    ReserveExactly(s', other, generation, digest, another, again, 1);
    hide Planned, Next;
  }

  /** The phase that each advance starts from. */
  predicate Precedes(p: Phase, op: RetryReceipts.Op)
    requires op.Start? || op.BeginFinalizing?
  {
    if op.Start? then p == RetryReserved else p == RetryStarted
  }

  function Advanced(r: Receipt, op: RetryReceipts.Op, now: Instant): Receipt
    requires op.Start? || op.BeginFinalizing?
  {
    if op.Start? then
      Receipt(r.retry, r.generation, RetryStarted, r.creator, Some(op.supervisor), Some(op.worker), r.reservedAt,
              Some(FloorSecond(now)), r.finalizedAt, r.digest)
    else
      Receipt(r.retry, r.generation, RetryFinalizing, r.creator, r.supervisor, r.worker, r.reservedAt, r.startedAt,
              r.finalizedAt, r.digest)
  }

  /** An advance under the receipt's generation and from the phase before is stored when it can be written. */
  lemma AdvanceExactly(s: Store, d: DispatchId, generation: GenerationId, op: RetryReceipts.Op, now: Instant, budget: nat)
    requires Consistent(s) && (op.Start? || op.BeginFinalizing?)
    ensures var call := RetryCall(d, generation, op);
      var planned, s' := Planned(s, call, now), Next(s, Step(call, now, budget));
      if d !in s.receipts || s.receipts[d].generation != generation then planned == Failure(FencingError) && s' == s
      else if !Precedes(s.receipts[d].phase, op) then planned == Failure(PhaseError) && s' == s
      else
        && planned.Success? && planned.value.1 == Advanced(s.receipts[d], op, now)
        && s' == if budget == 0 then s else s.(receipts := s.receipts[d := Advanced(s.receipts[d], op, now)])
  {
    if d in s.receipts { assert ReceiptOk(s, d); }
  }

  function Finalized(r: Receipt, now: Instant): Receipt {
    Receipt(r.retry, r.generation, RetryFinalized, r.creator, r.supervisor, r.worker, r.reservedAt, r.startedAt,
            Some(FloorSecond(now)), r.digest)
  }

  /** A finalization writes the tombstone unless it is there, then the receipt, and is refused unless the receipt is
      finalizing under the caller's generation. */
  lemma FinalizeExactly(s: Store, d: DispatchId, generation: GenerationId, now: Instant, budget: nat)
    requires Consistent(s)
    ensures var call := RetryCall(d, generation, Finalize);
      var planned, s' := Planned(s, call, now), Next(s, Step(call, now, budget));
      if d !in s.receipts || s.receipts[d].generation != generation then planned == Failure(FencingError) && s' == s
      else if s.receipts[d].phase != RetryFinalizing then planned == Failure(PhaseError) && s' == s
      else
        var done := Finalized(s.receipts[d], now);
        if d in s.tombstones then
          && planned.Success? && planned.value.1 == s.tombstones[d]
          && s' == if budget == 0 then s else s.(receipts := s.receipts[d := done])
        else
          && planned.Success? && planned.value.1 == done
          && s' == if budget == 0 then s else if budget == 1 then s.(tombstones := s.tombstones[d := done])
                   else Store(s.receipts[d := done], s.tombstones[d := done])
  {
    if d in s.receipts { assert ReceiptOk(s, d); }
    if d in s.tombstones { assert TombstoneOk(s, d); }
    hide Consistent, ReceiptOk;
  }

  // ---- Runs -------------------------------------------------------------------------------------------------------

  predicate Asked(call: RetryCall, steps: seq<Step>) { exists i :: 0 <= i < |steps| && steps[i].call == call }

  /** Identity, digest and creator are those of a reservation of that dispatch, the processes those of a start, and the
      later phases were asked for, all under the receipt's generation. */
  predicate Sourced(r: Receipt, steps: seq<Step>) {
    var d, g := r.retry.nextDispatch, r.generation;
    && IsNextAttempt(r.retry)
    && Asked(RetryCall(d, g, Reserve(r.retry, r.digest, r.creator)), steps)
    && (r.supervisor.Some? <==> r.phase != RetryReserved) && (r.worker.Some? <==> r.phase != RetryReserved)
    && (r.supervisor.Some? && r.worker.Some? ==> Asked(RetryCall(d, g, Start(r.supervisor.value, r.worker.value)), steps))
    && (r.phase == RetryFinalizing || r.phase == RetryFinalized ==> Asked(RetryCall(d, g, BeginFinalizing), steps))
    && (r.phase == RetryFinalized ==> Asked(RetryCall(d, g, Finalize), steps))
  }

  predicate AllSourced(s: Store, steps: seq<Step>) {
    && (forall d :: d in s.receipts ==> s.receipts[d].retry.nextDispatch == d && Sourced(s.receipts[d], steps))
    && (forall d :: d in s.tombstones ==> s.tombstones[d].phase == RetryFinalized && Sourced(s.tombstones[d], steps))
  }

  lemma AskedLater(call: RetryCall, steps: seq<Step>, step: Step)
    ensures Asked(call, steps) || step.call == call ==> Asked(call, steps + [step])
  {
    if Asked(call, steps) {
      var i :| 0 <= i < |steps| && steps[i].call == call;
      assert (steps + [step])[i].call == call;
    }
    if step.call == call { assert (steps + [step])[|steps|].call == call; }
  }

  lemma SourcedLater(r: Receipt, steps: seq<Step>, step: Step)
    requires Sourced(r, steps)
    ensures Sourced(r, steps + [step])
  {
    hide Asked, IsNextAttempt;
    var d, g := r.retry.nextDispatch, r.generation;
    AskedLater(RetryCall(d, g, Reserve(r.retry, r.digest, r.creator)), steps, step);
    if r.supervisor.Some? && r.worker.Some? {
      AskedLater(RetryCall(d, g, Start(r.supervisor.value, r.worker.value)), steps, step);
    }
    AskedLater(RetryCall(d, g, BeginFinalizing), steps, step);
    AskedLater(RetryCall(d, g, Finalize), steps, step);
  }

  lemma AllSourcedLater(s: Store, steps: seq<Step>, step: Step)
    requires AllSourced(s, steps)
    ensures AllSourced(s, steps + [step])
  {
    hide Sourced;
    forall d | d in s.receipts ensures Sourced(s.receipts[d], steps + [step]) { SourcedLater(s.receipts[d], steps, step); }
    forall d | d in s.tombstones ensures Sourced(s.tombstones[d], steps + [step]) {
      SourcedLater(s.tombstones[d], steps, step);
    }
  }

  lemma MisdirectedReservation(s: Store, step: Step)
    requires step.call.op.Reserve? && step.call.op.retry.nextDispatch != step.call.dispatchId
    ensures Next(s, step) == s
  {
  }

  lemma ReserveSourced(s: Store, step: Step, steps: seq<Step>)
    requires AllSourced(s, steps + [step]) && step.call.op.Reserve?
    ensures AllSourced(Next(s, step), steps + [step])
  {
    hide Asked, Planned, Next, IsNextAttempt;
    var c := step.call;
    var d := c.op.retry.nextDispatch;
    AskedLater(c, steps, step);
    if c.dispatchId == d {
      ReserveExactly(s, c.op.retry, c.generation, c.op.digest, c.op.creator, step.now, step.budget);
      var r := Reservation(c.op.retry, c.generation, c.op.digest, c.op.creator, step.now);
      assert IsNextAttempt(c.op.retry) ==> Sourced(r, steps + [step]);
      hide Sourced;
    } else {
      MisdirectedReservation(s, step);
    }
  }

  lemma AdvanceSourced(s: Store, step: Step, steps: seq<Step>)
    requires Consistent(s) && AllSourced(s, steps + [step]) && (step.call.op.Start? || step.call.op.BeginFinalizing?)
    ensures AllSourced(Next(s, step), steps + [step])
  {
    hide Asked, Planned, Next, IsNextAttempt, Consistent;
    var c := step.call;
    AskedLater(c, steps, step);
    AdvanceExactly(s, c.dispatchId, c.generation, c.op, step.now, step.budget);
    if c.dispatchId in s.receipts && s.receipts[c.dispatchId].generation == c.generation
      && Precedes(s.receipts[c.dispatchId].phase, c.op)
    {
      assert Sourced(Advanced(s.receipts[c.dispatchId], c.op, step.now), steps + [step]);
    }
    hide Sourced;
  }

  lemma FinalizeSourced(s: Store, step: Step, steps: seq<Step>)
    requires Consistent(s) && AllSourced(s, steps + [step]) && step.call.op.Finalize?
    ensures AllSourced(Next(s, step), steps + [step])
  {
    hide Asked, Planned, Next, IsNextAttempt, Consistent;
    var c := step.call;
    AskedLater(c, steps, step);
    FinalizeExactly(s, c.dispatchId, c.generation, step.now, step.budget);
    if c.dispatchId in s.receipts && s.receipts[c.dispatchId].generation == c.generation
      && s.receipts[c.dispatchId].phase == RetryFinalizing
    {
      assert Sourced(Finalized(s.receipts[c.dispatchId], step.now), steps + [step]);
    }
    hide Sourced;
  }

  lemma {:induction false} RunSourced(s: Store, past: seq<Step>, steps: seq<Step>)
    requires Consistent(s) && AllSourced(s, past)
    ensures AllSourced(RetryReceipts.Run(s, steps), past + steps)
    decreases |steps|
  {
    hide Consistent, AllSourced, Next, Evolves;
    if steps == [] {
      assert past + steps == past;
    } else {
      NextKeeps(s, steps[0]);
      AllSourcedLater(s, past, steps[0]);
      match steps[0].call.op {
        case Reserve(_, _, _) => ReserveSourced(s, steps[0], past);
        case Finalize => FinalizeSourced(s, steps[0], past);
        case _ => AdvanceSourced(s, steps[0], past);
      }
      RunSourced(Next(s, steps[0]), past + [steps[0]], steps[1..]);
      assert past + [steps[0]] + steps[1..] == past + steps;
    }
  }

  /** Over whole runs from an empty store, whatever was interrupted: every stored receipt and tombstone is sourced. */
  lemma StoredWasAsked(steps: seq<Step>)
    ensures AllSourced(RetryReceipts.Run(Store(map[], map[]), steps), steps)
  {
    var none: seq<Step> := [];
    RunSourced(Store(map[], map[]), none, steps);
    assert none + steps == steps;
  }
}
