/** The two walks back from a repeated attempt to the admission plan it started from
    (`dockyard_owner_loss_recovery.py`, `dockyard_composition.py`). */
module RecoveryWalk {
  import opened Wrappers
  import opened Approvals
  import opened RetryReceipts

  type Token(==, !new)

  datatype Plan = Plan(
    taskId: TaskId, revision: int, attempt: int, dispatchId: DispatchId, eventId: EventId, receiptId: Token, digest: Token)

  // ---- The owner-loss walk ------------------------------------------------------------------------------------------

  /** Everything the store returns has passed the receipt's own validation. */
  predicate Stored(retries: map<DispatchId, Receipt>) {
    forall d :: d in retries ==> FieldsFit(retries[d])
  }

  predicate IsPlanOf(p: Plan, taskId: TaskId, revision: int, attempt: int, d: DispatchId) {
    p.taskId == taskId && p.revision == revision && p.attempt == attempt && p.dispatchId == d
  }

  function PlansOf(plans: seq<Plan>, taskId: TaskId, revision: int, attempt: int, d: DispatchId): seq<Plan> {
    if plans == [] then []
    else (if IsPlanOf(plans[0], taskId, revision, attempt, d) then [plans[0]] else [])
         + PlansOf(plans[1..], taskId, revision, attempt, d)
  }

  lemma PlansOfMeans(plans: seq<Plan>, taskId: TaskId, revision: int, attempt: int, d: DispatchId)
    ensures forall p :: p in PlansOf(plans, taskId, revision, attempt, d) <==>
                        p in plans && IsPlanOf(p, taskId, revision, attempt, d)
  {
  }

  /** The retry receipt that leads from one dispatch of the task to the failed one before it. */
  predicate Leads(retries: map<DispatchId, Receipt>, taskId: TaskId, revision: int, d: DispatchId, attempt: int) {
    && d in retries
    && retries[d].retry.taskId == taskId && retries[d].retry.revision == revision
    && retries[d].retry.nextAttempt == attempt && retries[d].retry.nextDispatch == d
  }

  /** From a dispatch, `hops` receipts back lies `source`. */
  ghost predicate Back(retries: map<DispatchId, Receipt>, taskId: TaskId, revision: int, d: DispatchId, attempt: int, hops: nat,
                       source: DispatchId)
    decreases hops
  {
    if hops == 0 then source == d
    else
      && Leads(retries, taskId, revision, d, attempt)
      && Back(retries, taskId, revision, retries[d].retry.failedDispatch, retries[d].retry.failedAttempt, hops - 1, source)
  }

  lemma {:induction false} BackStep(retries: map<DispatchId, Receipt>, taskId: TaskId, revision: int, d: DispatchId, attempt: int,
                                    hops: nat, source: DispatchId)
    requires Stored(retries) && Back(retries, taskId, revision, d, attempt, hops, source)
    requires Leads(retries, taskId, revision, source, attempt - hops)
    ensures Back(retries, taskId, revision, d, attempt, hops + 1, retries[source].retry.failedDispatch)
    decreases hops
  {
    if hops > 0 {
      BackStep(retries, taskId, revision, retries[d].retry.failedDispatch, attempt - 1, hops - 1, source);
    }
  }

  /** The loop of `_source_plan` for a dispatch that is itself a retry: follow the receipts until some plan is found.
      It ends because the attempt falls with every receipt; the plan found is one of the same task and revision, exactly
      as many attempts back as receipts were followed, and no plan was passed on the way. */
  method WalkBack(plans: seq<Plan>, retries: map<DispatchId, Receipt>, taskId: TaskId, revision: int, d: DispatchId, attempt: int)
    returns (r: Option<seq<Plan>>, hops: nat)
    requires Stored(retries) && Leads(retries, taskId, revision, d, attempt)
    ensures 1 <= hops <= 2
    ensures exists source :: Back(retries, taskId, revision, d, attempt, hops, source)
              && (if PlansOf(plans, taskId, revision, attempt - hops, source) != []
                  then r == Some(PlansOf(plans, taskId, revision, attempt - hops, source))
                  else r == None && !Leads(retries, taskId, revision, source, attempt - hops))
    ensures forall k, source :: 1 <= k < hops && Back(retries, taskId, revision, d, attempt, k, source)
              ==> PlansOf(plans, taskId, revision, attempt - k, source) == []
  {
    var source := retries[d].retry.failedDispatch;
    var sourceAttempt := retries[d].retry.failedAttempt;
    hops := 1;
    assert Back(retries, taskId, revision, source, attempt - 1, 0, source);
    while true
      invariant hops >= 1 && sourceAttempt == attempt - hops && sourceAttempt >= 1 && attempt <= 3
      invariant Back(retries, taskId, revision, d, attempt, hops, source)
      invariant forall k, s :: 1 <= k < hops && Back(retries, taskId, revision, d, attempt, k, s)
                  ==> PlansOf(plans, taskId, revision, attempt - k, s) == []
      decreases sourceAttempt
    {
      var found := PlansOf(plans, taskId, revision, sourceAttempt, source);
      if found != [] {
        return Some(found), hops;
      }
      if source !in retries || retries[source].retry.taskId != taskId || retries[source].retry.revision != revision
         || retries[source].retry.nextAttempt != sourceAttempt || retries[source].retry.nextDispatch != source {
        return None, hops;
      }
      BackStep(retries, taskId, revision, d, attempt, hops, source);
      forall s | Back(retries, taskId, revision, d, attempt, hops, s) ensures s == source {
        BackUnique(retries, taskId, revision, d, attempt, hops, s, source);
      }
      sourceAttempt := retries[source].retry.failedAttempt;
      source := retries[source].retry.failedDispatch;
      hops := hops + 1;
    }
  }

  lemma {:induction false} BackUnique(retries: map<DispatchId, Receipt>, taskId: TaskId, revision: int, d: DispatchId, attempt: int,
                                      hops: nat, s: DispatchId, u: DispatchId)
    requires Back(retries, taskId, revision, d, attempt, hops, s) && Back(retries, taskId, revision, d, attempt, hops, u)
    ensures s == u
    decreases hops
  {
    if hops > 0 {
      BackUnique(retries, taskId, revision, retries[d].retry.failedDispatch, retries[d].retry.failedAttempt, hops - 1, s, u);
    }
  }

  /** The first dispatch with a plan lies `hops` receipts back, and has one plan only. */
  ghost predicate OnePlanAt(plans: seq<Plan>, retries: map<DispatchId, Receipt>, taskId: TaskId, revision: int, d: DispatchId,
                            attempt: int, hops: nat, source: DispatchId)
  {
    && Back(retries, taskId, revision, d, attempt, hops, source)
    && |PlansOf(plans, taskId, revision, attempt - hops, source)| == 1
    && forall k, s :: 1 <= k < hops && Back(retries, taskId, revision, d, attempt, k, s)
         ==> PlansOf(plans, taskId, revision, attempt - k, s) == []
  }

  /** Where two receipts lead on from a dispatch, the second leads on from where the first ended. */
  lemma BackTwice(retries: map<DispatchId, Receipt>, taskId: TaskId, revision: int, d: DispatchId, attempt: int, s: DispatchId,
                  u: DispatchId)
    requires Stored(retries) && Back(retries, taskId, revision, d, attempt, 1, s) && Back(retries, taskId, revision, d, attempt, 2, u)
    ensures Leads(retries, taskId, revision, s, attempt - 1)
  {
    var f := retries[d].retry.failedDispatch;
    assert Back(retries, taskId, revision, f, retries[d].retry.failedAttempt, 0, s);
    assert Back(retries, taskId, revision, f, retries[d].retry.failedAttempt, 1, u);
  }

  /** When the walk ends without exactly one plan, there is no dispatch one or two receipts back that has it. */
  lemma NoOtherPlan(plans: seq<Plan>, retries: map<DispatchId, Receipt>, taskId: TaskId, revision: int, d: DispatchId, attempt: int,
                    hops: nat, s: DispatchId, k: nat, u: DispatchId)
    requires Stored(retries) && 1 <= hops <= 2 && 1 <= k <= 2 && Back(retries, taskId, revision, d, attempt, hops, s)
    requires |PlansOf(plans, taskId, revision, attempt - hops, s)| != 1
    requires PlansOf(plans, taskId, revision, attempt - hops, s) == [] ==> !Leads(retries, taskId, revision, s, attempt - hops)
    requires forall j, v :: 1 <= j < hops && Back(retries, taskId, revision, d, attempt, j, v)
               ==> PlansOf(plans, taskId, revision, attempt - j, v) == []
    ensures !OnePlanAt(plans, retries, taskId, revision, d, attempt, k, u)
  {
    hide PlansOf;
    if OnePlanAt(plans, retries, taskId, revision, d, attempt, k, u) {
      if k == hops {
        BackUnique(retries, taskId, revision, d, attempt, k, s, u);
      } else if k > hops {
        BackTwice(retries, taskId, revision, d, attempt, s, u);
      }
    }
  }

  /** `_source_plan` up to the plan it settles on: the dispatch's own plan, or the one its retries lead back to. It finds
      one exactly if the dispatch has one plan or, for a retry that has been started under the same processes, if the
      first dispatch with a plan, one or two receipts back, has one. */
  method SourcePlan(plans: seq<Plan>, retries: map<DispatchId, Receipt>, taskId: TaskId, revision: int, attempt: int,
                    d: DispatchId, samePids: bool)
    returns (r: Option<Plan>, ghost hops: nat)
    requires Stored(retries)
    ensures r.Some? ==> r.value in plans && r.value.taskId == taskId && r.value.revision == revision
    ensures r.Some? ==> hops <= 2 && r.value.attempt == attempt - hops
                        && Back(retries, taskId, revision, d, attempt, hops, r.value.dispatchId)
    ensures r.Some? ==> (hops == 0 <==> d !in retries)
    ensures d !in retries ==> (r.Some? <==> |PlansOf(plans, taskId, revision, attempt, d)| == 1)
    ensures d in retries ==>
      (r.Some? <==>
        && Leads(retries, taskId, revision, d, attempt) && samePids
        && (retries[d].phase.RetryStarted? || retries[d].phase.RetryFinalizing?)
        && exists k, source :: 1 <= k <= 2 && OnePlanAt(plans, retries, taskId, revision, d, attempt, k, source))
  {
    hops := 0;
    var found := [];
    if d !in retries {
      found := PlansOf(plans, taskId, revision, attempt, d);
      PlansOfMeans(plans, taskId, revision, attempt, d);
      if |found| != 1 {
        return None, 0;
      }
    } else {
      var retry := retries[d];
      if retry.retry.taskId != taskId || retry.retry.revision != revision || retry.retry.nextAttempt != attempt
         || retry.retry.nextDispatch != d || !(retry.phase.RetryStarted? || retry.phase.RetryFinalizing?) || !samePids {
        return None, 0;
      }
      var walked, followed := WalkBack(plans, retries, taskId, revision, d, attempt);
      ghost var source :| Back(retries, taskId, revision, d, attempt, followed, source)
        && (if PlansOf(plans, taskId, revision, attempt - followed, source) != []
            then walked == Some(PlansOf(plans, taskId, revision, attempt - followed, source))
            else walked == None && !Leads(retries, taskId, revision, source, attempt - followed));
      if walked.None? || |walked.value| != 1 {
        forall k: nat, u | 1 <= k <= 2 ensures !OnePlanAt(plans, retries, taskId, revision, d, attempt, k, u) {
          NoOtherPlan(plans, retries, taskId, revision, d, attempt, followed, source, k, u);
        }
        return None, 0;
      }
      found, hops := walked.value, followed;
      PlansOfMeans(plans, taskId, revision, attempt - followed, source);
      assert OnePlanAt(plans, retries, taskId, revision, d, attempt, followed, source);
    }
    assert found[0] in found;
    return Some(found[0]), hops;
  }

  // ---- The walk from a returned review -------------------------------------------------------------------------------

  datatype Review = Review(
    taskId: TaskId, revision: int, attempt: int, dispatchId: DispatchId, generation: Token, finalized: bool, failed: bool,
    digest: Token)

  datatype ReviewRequest = ReviewRequest(
    workerDigest: Token, queue: Token, scheduleReceipt: Token, planDigest: Token, handoff: Token, worktree: Token)

  datatype Redispatch = Redispatch(
    source: Token, taskId: TaskId, revision: int, attempt: int, dispatchId: DispatchId, generation: Token, digest: Token,
    sourceDigest: Token)

  datatype Handoff = Handoff(
    taskId: TaskId, revision: int, attempt: int, dispatchId: DispatchId, queue: Token, receipt: Token, planDigest: Token,
    id: Token, finalized: bool)

  /** The durable stores the walk reads; a review is stored with the request it answers. Attempts are at least 1. */
  datatype Stores = Stores(
    handoffs: map<DispatchId, Handoff>, redispatches: map<DispatchId, Redispatch>,
    reviews: map<Token, (Review, ReviewRequest)>, plans: map<Token, Plan>)

  predicate SourceFits(x: Redispatch, review: Review, request: ReviewRequest, source: Review, asked: ReviewRequest) {
    && x.digest == request.workerDigest && x.taskId == review.taskId && x.revision == review.revision
    && x.attempt == review.attempt && x.dispatchId == review.dispatchId && x.generation == review.generation
    && source.finalized && source.failed && source.digest == x.sourceDigest
    && source.taskId == review.taskId && source.revision == review.revision && source.attempt + 1 == review.attempt
    && asked.queue == request.queue && asked.scheduleReceipt == request.scheduleReceipt
    && asked.planDigest == request.planDigest && asked.handoff == request.handoff && asked.worktree == request.worktree
  }

  predicate ContextFits(s: Stores, review: Review, request: ReviewRequest, h: Handoff, attempt: int, d: DispatchId) {
    && h.taskId == review.taskId && h.revision == review.revision && h.attempt == attempt && h.dispatchId == d && h.finalized
    && h.queue in s.plans
    && var p := s.plans[h.queue];
       && p.taskId == review.taskId && p.revision == review.revision && p.attempt == attempt && p.dispatchId == d
       && p.receiptId == h.receipt && p.digest == h.planDigest && p.receiptId == request.scheduleReceipt
       && p.digest == request.planDigest && h.id == request.handoff
  }

  /** `_returned_admission_context`: the handoff of the reviewed dispatch, or that of the review it was repeated for. */
  function Returned(s: Stores, review: Review, request: ReviewRequest): Option<Handoff>
    requires forall k :: k in s.reviews ==> s.reviews[k].0.attempt >= 1
    decreases if review.attempt >= 0 then review.attempt else 0
  {
    if review.dispatchId in s.handoffs then
      var h := s.handoffs[review.dispatchId];
      if ContextFits(s, review, request, h, review.attempt, review.dispatchId) then Some(h) else None
    else if review.dispatchId !in s.redispatches || s.redispatches[review.dispatchId].source !in s.reviews then None
    else
      var x := s.redispatches[review.dispatchId];
      var (source, asked) := s.reviews[x.source];
      if !SourceFits(x, review, request, source, asked) then None
      else
        match Returned(s, source, asked)
        case None => None
        case Some(h) => if ContextFits(s, review, request, h, h.attempt, h.dispatchId) then Some(h) else None
  }

  /** `hops` redispatches back from a review lies the dispatch `d`. */
  ghost predicate RepeatedFrom(s: Stores, review: Review, hops: nat, d: DispatchId)
    decreases hops
  {
    if hops == 0 then review.dispatchId == d
    else
      && review.dispatchId in s.redispatches && s.redispatches[review.dispatchId].source in s.reviews
      && RepeatedFrom(s, s.reviews[s.redispatches[review.dispatchId].source].0, hops - 1, d)
  }

  /** The walk ends because attempts fall, and lands on a finalized handoff with an admission plan of the same task and
      revision, for the dispatch exactly as many redispatches back as attempts have passed since. */
  lemma {:induction false} ReturnedLands(s: Stores, review: Review, request: ReviewRequest)
    requires forall k :: k in s.reviews ==> s.reviews[k].0.attempt >= 1
    requires Returned(s, review, request).Some?
    ensures var h := Returned(s, review, request).value;
      && h.attempt <= review.attempt && h.taskId == review.taskId && h.revision == review.revision && h.finalized
      && RepeatedFrom(s, review, review.attempt - h.attempt, h.dispatchId)
      && h.dispatchId in s.handoffs && s.handoffs[h.dispatchId] == h
      && h.queue in s.plans && s.plans[h.queue].attempt == h.attempt && s.plans[h.queue].dispatchId == h.dispatchId
      && s.plans[h.queue].taskId == review.taskId && s.plans[h.queue].revision == review.revision
    decreases if review.attempt >= 0 then review.attempt else 0
  {
    if review.dispatchId !in s.handoffs {
      var (source, asked) := s.reviews[s.redispatches[review.dispatchId].source];
      ReturnedLands(s, source, asked);
    }
  }
}
