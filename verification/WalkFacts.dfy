/** What the walks of `RecoveryWalk` follow, receipt by receipt and review by review. */
module WalkFacts {
  import opened Wrappers
  import opened Approvals
  import opened RetryReceipts
  import opened RecoveryWalk

  // ---- Plans ----------------------------------------------------------------------------------------------------------

  /** A plan of this attempt under this dispatch. */
  predicate IsIt(p: Plan, taskId: TaskId, revision: int, attempt: int, d: DispatchId) {
    p.taskId == taskId && p.revision == revision && p.attempt == attempt && p.dispatchId == d
  }

  /** Exactly one of the plans is, the one at `i`. */
  predicate OnlyAt(plans: seq<Plan>, i: nat, taskId: TaskId, revision: int, attempt: int, d: DispatchId)
    requires i < |plans|
  {
    && IsIt(plans[i], taskId, revision, attempt, d)
    && forall j :: 0 <= j < |plans| && j != i ==> !IsIt(plans[j], taskId, revision, attempt, d)
  }

  predicate HasOnePlan(plans: seq<Plan>, taskId: TaskId, revision: int, attempt: int, d: DispatchId) {
    exists i :: 0 <= i < |plans| && OnlyAt(plans, i, taskId, revision, attempt, d)
  }

  predicate HasNoPlan(plans: seq<Plan>, taskId: TaskId, revision: int, attempt: int, d: DispatchId) {
    forall j :: 0 <= j < |plans| ==> !IsIt(plans[j], taskId, revision, attempt, d)
  }

  lemma {:induction false} NoPlanExactly(plans: seq<Plan>, taskId: TaskId, revision: int, attempt: int, d: DispatchId)
    ensures PlansOf(plans, taskId, revision, attempt, d) == [] <==> HasNoPlan(plans, taskId, revision, attempt, d)
  {
    if plans != [] { NoPlanExactly(plans[1..], taskId, revision, attempt, d); }
  }

  lemma {:induction false} OnePlanExactly(plans: seq<Plan>, taskId: TaskId, revision: int, attempt: int, d: DispatchId)
    ensures |PlansOf(plans, taskId, revision, attempt, d)| == 1 <==> HasOnePlan(plans, taskId, revision, attempt, d)
  {
    if plans != [] {
      var rest := plans[1..];
      OnePlanExactly(rest, taskId, revision, attempt, d);
      NoPlanExactly(rest, taskId, revision, attempt, d);
      hide PlansOf, HasOnePlan;
      OnePlanCons(plans, taskId, revision, attempt, d);
    }
  }

  lemma OnePlanCons(plans: seq<Plan>, taskId: TaskId, revision: int, attempt: int, d: DispatchId)
    requires plans != []
    ensures HasOnePlan(plans, taskId, revision, attempt, d) <==>
      if IsIt(plans[0], taskId, revision, attempt, d) then HasNoPlan(plans[1..], taskId, revision, attempt, d)
      else HasOnePlan(plans[1..], taskId, revision, attempt, d)
  {
    hide IsIt;
    var rest := plans[1..];
    if HasOnePlan(plans, taskId, revision, attempt, d) {
      var i: nat :| 0 <= i < |plans| && OnlyAt(plans, i, taskId, revision, attempt, d);
      if i > 0 { assert OnlyAt(rest, i - 1, taskId, revision, attempt, d); }
    }
    if HasOnePlan(rest, taskId, revision, attempt, d) && !IsIt(plans[0], taskId, revision, attempt, d) {
      var i: nat :| 0 <= i < |rest| && OnlyAt(rest, i, taskId, revision, attempt, d);
      assert OnlyAt(plans, i + 1, taskId, revision, attempt, d);
    }
    if HasNoPlan(rest, taskId, revision, attempt, d) && IsIt(plans[0], taskId, revision, attempt, d) {
      assert forall j :: 0 < j < |plans| ==> plans[j] == rest[j - 1];
      assert OnlyAt(plans, 0, taskId, revision, attempt, d);
    }
  }

  // ---- Receipts ---------------------------------------------------------------------------------------------------------

  /** The receipt of this attempt says that it repeats the one before it, which ran under `failed`. */
  predicate Repeats(retries: map<DispatchId, Receipt>, taskId: TaskId, revision: int, d: DispatchId, attempt: int,
                    failed: DispatchId)
  {
    && d in retries
    && retries[d].retry.taskId == taskId && retries[d].retry.revision == revision
    && retries[d].retry.nextDispatch == d && retries[d].retry.nextAttempt == attempt
    && retries[d].retry.failedDispatch == failed && retries[d].retry.failedAttempt == attempt - 1
  }

  lemma BackOnce(retries: map<DispatchId, Receipt>, taskId: TaskId, revision: int, d: DispatchId, attempt: int, source: DispatchId)
    requires RecoveryWalk.Stored(retries)
    ensures Back(retries, taskId, revision, d, attempt, 1, source) <==> Repeats(retries, taskId, revision, d, attempt, source)
  {
    if Leads(retries, taskId, revision, d, attempt) {
      assert Back(retries, taskId, revision, retries[d].retry.failedDispatch, attempt - 1, 0, source)
        <==> source == retries[d].retry.failedDispatch;
    }
  }

  lemma BackTwiceExactly(retries: map<DispatchId, Receipt>, taskId: TaskId, revision: int, d: DispatchId, attempt: int,
                         first: DispatchId, source: DispatchId)
    requires RecoveryWalk.Stored(retries) && Repeats(retries, taskId, revision, d, attempt, first)
    ensures Back(retries, taskId, revision, d, attempt, 2, source) <==>
      Repeats(retries, taskId, revision, first, attempt - 1, source)
  {
    BackOnce(retries, taskId, revision, first, attempt - 1, source);
    assert Back(retries, taskId, revision, d, attempt, 2, source) <==>
      Leads(retries, taskId, revision, d, attempt) && Back(retries, taskId, revision, first, attempt - 1, 1, source);
  }

  /** The attempt before has one plan. */
  predicate TracesOnce(plans: seq<Plan>, retries: map<DispatchId, Receipt>, taskId: TaskId, revision: int, d: DispatchId,
                       attempt: int)
  {
    && d in retries && Repeats(retries, taskId, revision, d, attempt, retries[d].retry.failedDispatch)
    && HasOnePlan(plans, taskId, revision, attempt - 1, retries[d].retry.failedDispatch)
  }

  /** The attempt before has no plan, and the one before that has one. */
  predicate TracesTwice(plans: seq<Plan>, retries: map<DispatchId, Receipt>, taskId: TaskId, revision: int, d: DispatchId,
                        attempt: int)
  {
    && d in retries && Repeats(retries, taskId, revision, d, attempt, retries[d].retry.failedDispatch)
    && HasNoPlan(plans, taskId, revision, attempt - 1, retries[d].retry.failedDispatch)
    && TracesOnce(plans, retries, taskId, revision, retries[d].retry.failedDispatch, attempt - 1)
  }

  lemma OnceExactly(plans: seq<Plan>, retries: map<DispatchId, Receipt>, taskId: TaskId, revision: int, d: DispatchId,
                    attempt: int, source: DispatchId)
    requires RecoveryWalk.Stored(retries)
    ensures OnePlanAt(plans, retries, taskId, revision, d, attempt, 1, source)
      <==> TracesOnce(plans, retries, taskId, revision, d, attempt) && source == retries[d].retry.failedDispatch
  {
    hide PlansOf, HasOnePlan, Back;
    BackOnce(retries, taskId, revision, d, attempt, source);
    OnePlanExactly(plans, taskId, revision, attempt - 1, source);
  }

  lemma TwiceExactly(plans: seq<Plan>, retries: map<DispatchId, Receipt>, taskId: TaskId, revision: int, d: DispatchId,
                     attempt: int, source: DispatchId)
    requires RecoveryWalk.Stored(retries) && d in retries && Repeats(retries, taskId, revision, d, attempt, retries[d].retry.failedDispatch)
    ensures var first := retries[d].retry.failedDispatch;
      OnePlanAt(plans, retries, taskId, revision, d, attempt, 2, source) <==>
        TracesTwice(plans, retries, taskId, revision, d, attempt) && source == retries[first].retry.failedDispatch
  {
    var first := retries[d].retry.failedDispatch;
    hide PlansOf, HasOnePlan, HasNoPlan, Back, RecoveryWalk.Stored;
    BackTwiceExactly(retries, taskId, revision, d, attempt, first, source);
    OnePlanExactly(plans, taskId, revision, attempt - 2, source);
    NoPlanExactly(plans, taskId, revision, attempt - 1, first);
    forall s ensures Back(retries, taskId, revision, d, attempt, 1, s) <==> Repeats(retries, taskId, revision, d, attempt, s) {
      BackOnce(retries, taskId, revision, d, attempt, s);
    }
  }

  lemma NotTwice(plans: seq<Plan>, retries: map<DispatchId, Receipt>, taskId: TaskId, revision: int, d: DispatchId,
                 attempt: int, source: DispatchId)
    requires RecoveryWalk.Stored(retries) && OnePlanAt(plans, retries, taskId, revision, d, attempt, 2, source)
    ensures d in retries && Repeats(retries, taskId, revision, d, attempt, retries[d].retry.failedDispatch)
  {
  }

  /** `SourcePlan` finds a plan for a started retry exactly if its receipts trace back to one. */
  lemma TracesExactly(plans: seq<Plan>, retries: map<DispatchId, Receipt>, taskId: TaskId, revision: int, d: DispatchId,
                      attempt: int)
    requires RecoveryWalk.Stored(retries)
    ensures (exists k, source :: 1 <= k <= 2 && OnePlanAt(plans, retries, taskId, revision, d, attempt, k, source)) <==>
      TracesOnce(plans, retries, taskId, revision, d, attempt) || TracesTwice(plans, retries, taskId, revision, d, attempt)
  {
    hide OnePlanAt, HasOnePlan, HasNoPlan, Repeats, RecoveryWalk.Stored;
    forall source
      ensures OnePlanAt(plans, retries, taskId, revision, d, attempt, 1, source)
        <==> TracesOnce(plans, retries, taskId, revision, d, attempt) && source == retries[d].retry.failedDispatch
    {
      OnceExactly(plans, retries, taskId, revision, d, attempt, source);
    }
    if d in retries && Repeats(retries, taskId, revision, d, attempt, retries[d].retry.failedDispatch) {
      var first := retries[d].retry.failedDispatch;
      forall source
        ensures OnePlanAt(plans, retries, taskId, revision, d, attempt, 2, source) <==>
          TracesTwice(plans, retries, taskId, revision, d, attempt) && source == retries[first].retry.failedDispatch
      {
        TwiceExactly(plans, retries, taskId, revision, d, attempt, source);
      }
      if TracesOnce(plans, retries, taskId, revision, d, attempt) {
        assert OnePlanAt(plans, retries, taskId, revision, d, attempt, 1, first);
      }
      if TracesTwice(plans, retries, taskId, revision, d, attempt) {
        assert OnePlanAt(plans, retries, taskId, revision, d, attempt, 2, retries[first].retry.failedDispatch);
      }
    } else {
      forall source ensures !OnePlanAt(plans, retries, taskId, revision, d, attempt, 2, source) {
        if OnePlanAt(plans, retries, taskId, revision, d, attempt, 2, source) {
          NotTwice(plans, retries, taskId, revision, d, attempt, source);
        }
      }
    }
  }

  // ---- Reviews ----------------------------------------------------------------------------------------------------------

  /** The redispatch of a review goes back to another one: it is the worker that the request asks to review, the source is a
      finalized failure of the attempt before, and both requests are of the same admission. */
  predicate GoesBack(s: Stores, review: Review, request: ReviewRequest, source: Review, asked: ReviewRequest) {
    && review.dispatchId in s.redispatches
    && var x := s.redispatches[review.dispatchId];
    && x.source in s.reviews && s.reviews[x.source] == (source, asked)
    && request.workerDigest == x.digest
    && (x.taskId, x.revision, x.attempt) == (review.taskId, review.revision, review.attempt)
    && (x.dispatchId, x.generation) == (review.dispatchId, review.generation)
    && source.failed && source.finalized && x.sourceDigest == source.digest
    && (source.taskId, source.revision, source.attempt) == (review.taskId, review.revision, review.attempt - 1)
    && (asked.queue, asked.scheduleReceipt, asked.planDigest) == (request.queue, request.scheduleReceipt, request.planDigest)
    && (asked.handoff, asked.worktree) == (request.handoff, request.worktree)
  }

  /** A finalized handoff of the task, and the plan it was admitted under, as the request names them. */
  predicate IsAdmission(s: Stores, h: Handoff, taskId: TaskId, revision: int, request: ReviewRequest) {
    && h.finalized && h.id == request.handoff && (h.taskId, h.revision) == (taskId, revision)
    && h.queue in s.plans
    && var p := s.plans[h.queue];
    && (p.taskId, p.revision, p.attempt, p.dispatchId) == (taskId, revision, h.attempt, h.dispatchId)
    && (p.receiptId, p.digest) == (h.receipt, h.planDigest) && (p.receiptId, p.digest) == (request.scheduleReceipt, request.planDigest)
  }

  /** Review by review back to one whose dispatch was handed off. */
  ghost predicate IsTrail(s: Stores, trail: seq<(Review, ReviewRequest)>)
    ensures IsTrail(s, trail) ==> |trail| > 0
  {
    && |trail| > 0
    && (forall i {:trigger trail[i]} :: 0 <= i < |trail| - 1 ==>
          trail[i].0.dispatchId !in s.handoffs && GoesBack(s, trail[i].0, trail[i].1, trail[i + 1].0, trail[i + 1].1))
  }

  /** The trail ends at the handoff of its last dispatch, and of its attempt. */
  ghost predicate EndsAt(s: Stores, trail: seq<(Review, ReviewRequest)>, h: Handoff)
    requires |trail| > 0
  {
    var last := trail[|trail| - 1].0;
    && last.dispatchId in s.handoffs && s.handoffs[last.dispatchId] == h
    && h.dispatchId == last.dispatchId && h.attempt == last.attempt
  }

  lemma SourceExactly(s: Stores, review: Review, request: ReviewRequest, source: Review, asked: ReviewRequest)
    ensures GoesBack(s, review, request, source, asked) <==>
      && review.dispatchId in s.redispatches && s.redispatches[review.dispatchId].source in s.reviews
      && s.reviews[s.redispatches[review.dispatchId].source] == (source, asked)
      && SourceFits(s.redispatches[review.dispatchId], review, request, source, asked)
  {
  }

  lemma ContextExactly(s: Stores, review: Review, request: ReviewRequest, h: Handoff, attempt: int, d: DispatchId)
    ensures ContextFits(s, review, request, h, attempt, d)
      <==> h.attempt == attempt && h.dispatchId == d && IsAdmission(s, h, review.taskId, review.revision, request)
  {
  }

  /** One admission for the whole trail. */
  lemma SameAdmission(s: Stores, review: Review, request: ReviewRequest, source: Review, asked: ReviewRequest, h: Handoff)
    requires GoesBack(s, review, request, source, asked)
    ensures IsAdmission(s, h, review.taskId, review.revision, request) <==> IsAdmission(s, h, source.taskId, source.revision, asked)
  {
  }

  lemma {:induction false} TrailOf(s: Stores, review: Review, request: ReviewRequest) returns (trail: seq<(Review, ReviewRequest)>)
    requires forall k :: k in s.reviews ==> s.reviews[k].0.attempt >= 1
    requires Returned(s, review, request).Some?
    ensures IsTrail(s, trail) && trail[0] == (review, request) && EndsAt(s, trail, Returned(s, review, request).value)
    ensures IsAdmission(s, Returned(s, review, request).value, review.taskId, review.revision, request)
    decreases if review.attempt >= 0 then review.attempt else 0
  {
    hide IsAdmission, ContextFits, SourceFits, GoesBack;
    var h := Returned(s, review, request).value;
    if review.dispatchId in s.handoffs {
      trail := [(review, request)];
      ContextExactly(s, review, request, h, review.attempt, review.dispatchId);
    } else {
      var (source, asked) := s.reviews[s.redispatches[review.dispatchId].source];
      SourceExactly(s, review, request, source, asked);
      ContextExactly(s, review, request, h, h.attempt, h.dispatchId);
      Earlier(s, review, request, source, asked);
      var rest := TrailOf(s, source, asked);
      trail := [(review, request)] + rest;
      hide Returned;
      TrailCons(s, review, request, rest);
    }
  }

  lemma Earlier(s: Stores, review: Review, request: ReviewRequest, source: Review, asked: ReviewRequest)
    requires GoesBack(s, review, request, source, asked) && forall k :: k in s.reviews ==> s.reviews[k].0.attempt >= 1
    ensures 1 <= source.attempt < review.attempt
  {
  }

  lemma TrailCons(s: Stores, review: Review, request: ReviewRequest, rest: seq<(Review, ReviewRequest)>)
    requires IsTrail(s, rest) && review.dispatchId !in s.handoffs && GoesBack(s, review, request, rest[0].0, rest[0].1)
    ensures IsTrail(s, [(review, request)] + rest)
  {
    hide GoesBack;
    var trail := [(review, request)] + rest;
    forall i {:trigger trail[i]} | 0 <= i < |trail| - 1
      ensures trail[i].0.dispatchId !in s.handoffs && GoesBack(s, trail[i].0, trail[i].1, trail[i + 1].0, trail[i + 1].1)
    {
      if i > 0 { assert trail[i] == rest[i - 1] && trail[i + 1] == rest[i]; }
    }
  }

  lemma TrailRest(s: Stores, trail: seq<(Review, ReviewRequest)>)
    requires IsTrail(s, trail) && |trail| > 1
    ensures trail[0].0.dispatchId !in s.handoffs && GoesBack(s, trail[0].0, trail[0].1, trail[1].0, trail[1].1)
    ensures IsTrail(s, trail[1..])
  {
    hide GoesBack;
    var rest := trail[1..];
    forall i {:trigger rest[i]} | 0 <= i < |rest| - 1
      ensures rest[i].0.dispatchId !in s.handoffs && GoesBack(s, rest[i].0, rest[i].1, rest[i + 1].0, rest[i + 1].1)
    {
      assert rest[i] == trail[i + 1] && rest[i + 1] == trail[i + 2];
    }
  }

  lemma {:induction false} TrailReturns(s: Stores, trail: seq<(Review, ReviewRequest)>, h: Handoff)
    requires forall k :: k in s.reviews ==> s.reviews[k].0.attempt >= 1
    requires IsTrail(s, trail) && EndsAt(s, trail, h)
    requires IsAdmission(s, h, trail[0].0.taskId, trail[0].0.revision, trail[0].1)
    ensures Returned(s, trail[0].0, trail[0].1) == Some(h)
    decreases |trail|
  {
    hide IsAdmission, ContextFits, SourceFits, GoesBack, IsTrail;
    var (review, request) := trail[0];
    if |trail| == 1 {
      ContextExactly(s, review, request, h, review.attempt, review.dispatchId);
    } else {
      var (source, asked) := trail[1];
      TrailRest(s, trail);
      SourceExactly(s, review, request, source, asked);
      SameAdmission(s, review, request, source, asked, h);
      assert trail[1..][|trail| - 2] == trail[|trail| - 1];
      TrailReturns(s, trail[1..], h);
      ContextExactly(s, review, request, h, h.attempt, h.dispatchId);
      Earlier(s, review, request, source, asked);
    }
  }

  /** The walk finds a handoff exactly if a trail of redispatches leads to it and it is an admission as the request names
      it. */
  lemma ReturnedExactly(s: Stores, review: Review, request: ReviewRequest, h: Handoff)
    requires forall k :: k in s.reviews ==> s.reviews[k].0.attempt >= 1
    ensures Returned(s, review, request) == Some(h) <==>
      && IsAdmission(s, h, review.taskId, review.revision, request)
      && exists trail :: IsTrail(s, trail) && trail[0] == (review, request) && EndsAt(s, trail, h)
  {
    hide Returned, IsTrail, EndsAt, IsAdmission;
    if Returned(s, review, request) == Some(h) { var trail := TrailOf(s, review, request); }
    forall trail | IsAdmission(s, h, review.taskId, review.revision, request) && IsTrail(s, trail) && |trail| > 0
        && trail[0] == (review, request) && EndsAt(s, trail, h)
      ensures Returned(s, review, request) == Some(h)
    {
      TrailReturns(s, trail, h);
    }
  }
}
