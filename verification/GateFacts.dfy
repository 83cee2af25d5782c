/** What the gate and the two writers answer, read off the stored records. */
module GateFacts {
  import opened Wrappers
  import opened Approvals
  import opened ApprovalRuns

  // ---- The records ------------------------------------------------------------------------------------------------

  function SnapshotOf(r: Record): Commit {
    match r case GrantRecord(g) => g.snapshot case RevokeRecord(r) => r.snapshot
  }

  /** The record was written at HEAD or at one of its ancestors. */
  predicate InHistory(r: Record, git: Git) { SnapshotOf(r) == git.head || SnapshotOf(r) in git.ancestors }

  predicate AllInHistory(files: Files, git: Git) { forall e :: e in files ==> InHistory(files[e], git) }

  predicate IsGrantFor(files: Files, e: EventId, scope: Scope, subject: Subject) {
    e in files && files[e].GrantRecord? && files[e].grant.scope == scope && files[e].grant.subject == subject
  }

  predicate IsRevokedAt(files: Files, a: ApprovalId, now: Instant) {
    exists e :: e in files && files[e].RevokeRecord? && files[e].revoke.approvalId == a && files[e].revoke.revokedAt <= now
  }

  predicate IsExpiredAt(g: Grant, now: Instant) { g.expiresAt.Some? && g.expiresAt.value <= now }

  /** Some grant is for this scope and subject, for this subject in any scope, for another subject of this task. */
  ghost predicate HasGrantFor(files: Files, scope: Scope, subject: Subject) { exists e :: IsGrantFor(files, e, scope, subject) }

  predicate HasGrantOfSubject(files: Files, subject: Subject) {
    exists e :: e in files && files[e].GrantRecord? && files[e].grant.subject == subject
  }

  predicate HasGrantOfTask(files: Files, scope: Scope, id: TaskId) {
    exists e :: e in files && files[e].GrantRecord? && files[e].grant.scope == scope && files[e].grant.subject.taskId == id
  }

  // ---- The gate ---------------------------------------------------------------------------------------------------

  /** The evidence precedes HEAD exactly if every record does, grants and revocations alike. */
  lemma AncestryExactly(files: Files, git: Git)
    requires Distinct(files)
    ensures AncestryHolds(EvidenceOf(files), git) <==> AllInHistory(files, git)
  {
    hide GrantsOf, RevokesOf, Distinct;
    forall e | e in files
      ensures files[e].GrantRecord? ==> files[e].grant.approvalId in GrantsOf(files) && GrantsOf(files)[files[e].grant.approvalId] == files[e].grant
      ensures files[e].RevokeRecord? ==> files[e].revoke.approvalId in RevokesOf(files) && RevokesOf(files)[files[e].revoke.approvalId] == files[e].revoke
    {
      if files[e].GrantRecord? { GrantLoaded(files, e); } else { RevokeLoaded(files, e); }
    }
    if AllInHistory(files, git) {
      forall a | a in GrantsOf(files) ensures git.IsAncestor(GrantsOf(files)[a].snapshot) {
        var e := GrantFile(files, a);
        assert InHistory(files[e], git);
      }
      forall a | a in RevokesOf(files) ensures git.IsAncestor(RevokesOf(files)[a].snapshot) {
        var e := RevokeFile(files, a);
        assert InHistory(files[e], git);
      }
    }
  }

  lemma RevokedExactly(files: Files, g: Grant, now: Instant)
    requires Distinct(files)
    ensures IsRevoked(EvidenceOf(files), g, now) <==> IsRevokedAt(files, g.approvalId, now)
  {
    hide GrantsOf, RevokesOf, Distinct;
    if IsRevoked(EvidenceOf(files), g, now) { var e := RevokeFile(files, g.approvalId); }
    if e :| e in files && files[e].RevokeRecord? && files[e].revoke.approvalId == g.approvalId && files[e].revoke.revokedAt <= now {
      RevokeLoaded(files, e);
    }
  }

  /** The gate judges exactly if the caller knows HEAD and no record is from outside its history; on a sound store there is
      no other way for it to fail. */
  lemma JudgesExactly(files: Files, git: Git, request: CheckRequest, now: Instant)
    requires Sound(files)
    ensures Check(files, git, request, now).Success? <==> request.expectedSnapshot == git.head && AllInHistory(files, git)
    ensures Check(files, git, request, now).Failure? ==> Check(files, git, request, now) == Failure(SnapshotConflict)
  {
    hide GrantsOf, RevokesOf, Distinct, Judge, WellNamed, RevokesHaveGrants, OneGrantEach, AncestryHolds, AllInHistory;
    AncestryExactly(files, git);
    if e :| IsGrant(files, e) && Exact(files[e].grant, request) {
      JudgeExact(files, e, request, now);
    } else {
      JudgeNoExact(files, request, now);
    }
  }

  /** With a grant for the scope and subject it passes with that grant, unless it is revoked by now, or else expired. */
  lemma FoundExactly(files: Files, git: Git, request: CheckRequest, now: Instant, e: EventId)
    requires Sound(files) && IsGrantFor(files, e, request.scope, request.subject)
    requires request.expectedSnapshot == git.head && AllInHistory(files, git)
    ensures Check(files, git, request, now) == Success(
      if IsRevokedAt(files, files[e].grant.approvalId, now) then Revoked
      else if IsExpiredAt(files[e].grant, now) then Expired
      else Passed(files[e].grant))
  {
    hide GrantsOf, RevokesOf, Distinct, Judge, WellNamed, RevokesHaveGrants, OneGrantEach, AncestryHolds, AllInHistory, IsRevokedAt, IsRevoked;
    AncestryExactly(files, git);
    JudgeExact(files, e, request, now);
    RevokedExactly(files, files[e].grant, now);
  }

  /** Without one it says whether the subject is approved in another scope, or the scope for another subject of the
      task. */
  lemma NotFoundExactly(files: Files, git: Git, request: CheckRequest, now: Instant)
    requires Sound(files) && !HasGrantFor(files, request.scope, request.subject)
    requires request.expectedSnapshot == git.head && AllInHistory(files, git)
    ensures Check(files, git, request, now) == Success(
      if HasGrantOfSubject(files, request.subject) then WrongScope
      else if HasGrantOfTask(files, request.scope, request.subject.taskId) then WrongSubject
      else NotFound)
  {
    hide GrantsOf, RevokesOf, Distinct, WellNamed, RevokesHaveGrants, OneGrantEach, AncestryHolds, AllInHistory;
    AncestryExactly(files, git);
    NoGrantIsExact(files, request);
    NoExactIds(files, request);
    NoneActive(EvidenceOf(files), request, now);
    ElsewhereExactly(files, request);
    hide ExactIds, ActiveIds, RevokedIds, SubjectElsewhere, OtherSubject, EvidenceOf;
  }

  lemma NoGrantIsExact(files: Files, request: CheckRequest)
    requires !HasGrantFor(files, request.scope, request.subject)
    ensures forall e :: IsGrant(files, e) ==> !Exact(files[e].grant, request)
  {
    forall e | IsGrant(files, e) ensures !Exact(files[e].grant, request) {
      assert !IsGrantFor(files, e, request.scope, request.subject);
    }
  }

  lemma ElsewhereExactly(files: Files, request: CheckRequest)
    requires Distinct(files) && !HasGrantFor(files, request.scope, request.subject)
    ensures var ev := EvidenceOf(files);
      && ((exists a :: a in ev.grants && SubjectElsewhere(ev.grants[a], request)) <==> HasGrantOfSubject(files, request.subject))
      && ((exists a :: a in ev.grants && OtherSubject(ev.grants[a], request)) <==>
            HasGrantOfTask(files, request.scope, request.subject.taskId))
  {
    hide GrantsOf, RevokesOf, Distinct;
    var ev := EvidenceOf(files);
    if a :| a in ev.grants && SubjectElsewhere(ev.grants[a], request) { var e := GrantFile(files, a); }
    if a :| a in ev.grants && OtherSubject(ev.grants[a], request) { var e := GrantFile(files, a); }
    if e :| e in files && files[e].GrantRecord? && files[e].grant.subject == request.subject {
      GrantLoaded(files, e);
      assert !IsGrantFor(files, e, request.scope, request.subject);
      assert SubjectElsewhere(ev.grants[files[e].grant.approvalId], request);
    }
    if e :| e in files && files[e].GrantRecord? && files[e].grant.scope == request.scope
            && files[e].grant.subject.taskId == request.subject.taskId {
      GrantLoaded(files, e);
      assert !IsGrantFor(files, e, request.scope, request.subject);
      assert OtherSubject(ev.grants[files[e].grant.approvalId], request);
    }
  }

  /** Whatever the store, what passes rests on a record of exactly this scope and subject, neither revoked nor expired, and
      all evidence is of HEAD or its ancestors. */
  lemma PassesOnHistory(files: Files, git: Git, request: CheckRequest, now: Instant)
    requires Check(files, git, request, now).Success?
    ensures request.expectedSnapshot == git.head && AllInHistory(files, git)
  {
    AncestryExactly(files, git);
    hide GrantsOf, RevokesOf, Distinct, AncestryHolds, AllInHistory, Judge;
  }

  lemma RequiredOnHistory(files: Files, git: Git, request: CheckRequest, now: Instant)
    requires Require(files, git, request, now).Success?
    ensures request.expectedSnapshot == git.head && AllInHistory(files, git)
  {
    hide Check, AllInHistory;
    PassesOnHistory(files, git, request, now);
  }

  /** What a caller that needs an approval gets: the grant, or which error. */
  lemma RequiredExactly(files: Files, git: Git, request: CheckRequest, now: Instant)
    requires Sound(files)
    ensures var r := Require(files, git, request, now);
      var known := request.expectedSnapshot == git.head && AllInHistory(files, git);
      && (r == Failure(SnapshotConflict) <==> !known)
      && (r == Failure(NotFoundError) <==> known && !HasGrantFor(files, request.scope, request.subject))
      && (forall e :: known && IsGrantFor(files, e, request.scope, request.subject) ==>
            r == if IsRevokedAt(files, files[e].grant.approvalId, now) then Failure(RevokedError)
                 else if IsExpiredAt(files[e].grant, now) then Failure(ExpiredError)
                 else Success(files[e].grant))
  {
    hide Check, Sound, AllInHistory, IsRevokedAt, IsExpiredAt;
    JudgesExactly(files, git, request, now);
    if request.expectedSnapshot == git.head && AllInHistory(files, git) {
      if HasGrantFor(files, request.scope, request.subject) {
        var e :| IsGrantFor(files, e, request.scope, request.subject);
        FoundExactly(files, git, request, now, e);
      } else {
        NotFoundExactly(files, git, request, now);
      }
      forall e | IsGrantFor(files, e, request.scope, request.subject)
        ensures Check(files, git, request, now) == Success(
          if IsRevokedAt(files, files[e].grant.approvalId, now) then Revoked
          else if IsExpiredAt(files[e].grant, now) then Expired
          else Passed(files[e].grant))
      {
        FoundExactly(files, git, request, now, e);
      }
    }
  }

  // ---- The writers ------------------------------------------------------------------------------------------------

  predicate UsesApproval(files: Files, a: ApprovalId) {
    exists e :: e in files && files[e].GrantRecord? && files[e].grant.approvalId == a
  }

  predicate RevokesApproval(files: Files, a: ApprovalId) {
    exists e :: e in files && files[e].RevokeRecord? && files[e].revoke.approvalId == a
  }

  lemma UsesExactly(files: Files, a: ApprovalId)
    requires Distinct(files)
    ensures a in GrantsOf(files) <==> UsesApproval(files, a)
    ensures a in RevokesOf(files) <==> RevokesApproval(files, a)
  {
    hide GrantsOf, RevokesOf, Distinct;
    if a in GrantsOf(files) { var e := GrantFile(files, a); }
    if a in RevokesOf(files) { var e := RevokeFile(files, a); }
    if e :| e in files && files[e].GrantRecord? && files[e].grant.approvalId == a { GrantLoaded(files, e); }
    if e :| e in files && files[e].RevokeRecord? && files[e].revoke.approvalId == a { RevokeLoaded(files, e); }
  }

  lemma TakenExactly(files: Files, e: EventId)
    requires Sound(files)
    ensures EventIdTaken(EvidenceOf(files), e) <==> e in files
  {
    hide GrantsOf, RevokesOf, Distinct, RevokesHaveGrants, OneGrantEach;
    var ev := EvidenceOf(files);
    if a :| a in ev.grants && ev.grants[a].eventId == e { var f := GrantFile(files, a); }
    if a :| a in ev.revokes && ev.revokes[a].eventId == e { var f := RevokeFile(files, a); }
    if e in files {
      if files[e].GrantRecord? { GrantLoaded(files, e); } else { RevokeLoaded(files, e); }
    }
  }

  /** The ids of the grant are new, and nothing was ever granted for its scope and subject. */
  ghost predicate GrantStands(files: Files, args: GrantArgs) {
    && args.eventId !in files && !UsesApproval(files, args.approvalId) && !HasGrantFor(files, args.scope, args.subject)
  }

  /** A grant is accepted exactly if an accepted commit is named for an integration and for nothing else, the lease epoch is
      positive, the caller knows HEAD, it expires after its own time if at all, its ids are new, and nothing was ever granted
      for that scope and subject; what is stored is what was asked for, at HEAD and at the whole second. */
  lemma GrantExactly(files: Files, git: Git, args: GrantArgs, now: Instant)
    requires Sound(files)
    ensures GrantOutcome(files, git, args, now) ==
      if (args.subject.acceptedCommit.Some? <==> args.scope != IntegrateScope) || args.leaseEpoch < 1 then Failure(InvalidArgument)
      else if args.expectedSnapshot != git.head then Failure(SnapshotConflict)
      else if args.expiresAt.Some? && args.expiresAt.value <= FloorSecond(now) then Failure(ValidationError)
      else if !GrantStands(files, args) then Failure(ValidationError)
      else Success(Grant(args.approvalId, args.eventId, args.scope, args.subject, args.leaseEpoch, FloorSecond(now),
                         args.expiresAt, args.reason, git.head))
  {
    hide GrantsOf, RevokesOf, Distinct, RevokesHaveGrants, OneGrantEach, WellNamed, EventIdTaken, UsesApproval, RevokesApproval;
    UsesExactly(files, args.approvalId);
    TakenExactly(files, args.eventId);
    BlockedExactly(files, args);
    hide BlockedByExact, HasGrantFor;
    if RevokesApproval(files, args.approvalId) { RevokedIsGranted(files, args.approvalId); }
  }

  lemma BlockedExactly(files: Files, args: GrantArgs)
    requires Distinct(files)
    ensures BlockedByExact(EvidenceOf(files), args) <==>
      HasGrantFor(files, args.scope, args.subject) && args.approvalId !in RevokesOf(files)
  {
    hide GrantsOf, RevokesOf, Distinct;
    var ev := EvidenceOf(files);
    if a :| a in ev.grants && ev.grants[a].scope == args.scope && ev.grants[a].subject == args.subject {
      var e := GrantFile(files, a);
      assert IsGrantFor(files, e, args.scope, args.subject);
    }
    if e :| IsGrantFor(files, e, args.scope, args.subject) { GrantLoaded(files, e); }
  }

  lemma RevokedIsGranted(files: Files, a: ApprovalId)
    requires Sound(files) && RevokesApproval(files, a)
    ensures UsesApproval(files, a)
  {
    hide Distinct, OneGrantEach, WellNamed;
    var e :| e in files && files[e].RevokeRecord? && files[e].revoke.approvalId == a;
    var f :| IsGrant(files, f) && files[f].grant.approvalId == a;
  }

  /** A revocation is accepted exactly if the lease epoch is positive, the caller knows HEAD, the approval was granted and
      not revoked before, and its id is new; it is stored with the task of the grant. */
  lemma RevokeExactly(files: Files, git: Git, args: RevokeArgs, now: Instant)
    requires Sound(files)
    ensures var r := RevokeOutcome(files, git, args, now);
      if args.leaseEpoch < 1 then r == Failure(InvalidArgument)
      else if args.expectedSnapshot != git.head then r == Failure(SnapshotConflict)
      else if !UsesApproval(files, args.approvalId) then r == Failure(NotFoundError)
      else if RevokesApproval(files, args.approvalId) then r == Failure(AmbiguousError)
      else if args.eventId in files then r == Failure(ValidationError)
      else forall e :: IsGrant(files, e) && files[e].grant.approvalId == args.approvalId ==>
             r == Success(Revoke(args.approvalId, args.eventId, files[e].grant.subject.taskId, args.leaseEpoch,
                                 FloorSecond(now), args.reason, git.head))
  {
    hide GrantsOf, RevokesOf, Distinct, RevokesHaveGrants, OneGrantEach, WellNamed, EventIdTaken, UsesApproval, RevokesApproval;
    UsesExactly(files, args.approvalId);
    TakenExactly(files, args.eventId);
    forall e | IsGrant(files, e) && files[e].grant.approvalId == args.approvalId
      ensures args.approvalId in GrantsOf(files) && GrantsOf(files)[args.approvalId] == files[e].grant
    {
      GrantLoaded(files, e);
    }
  }

  /** In particular, after the dispatch of a subject was approved its acceptance can be. */
  lemma AcceptAfterDispatch(files: Files, git: Git, first: GrantArgs, second: GrantArgs, now: Instant, git': Git, now': Instant)
    requires Sound(files) && GrantOutcome(files, git, first, now).Success? && first.scope == DispatchScope
    requires second.scope == AcceptScope && second.subject == first.subject && second.leaseEpoch >= 1
    requires second.expectedSnapshot == git'.head && second.expiresAt.None?
    requires second.eventId != first.eventId && second.eventId !in files
    requires second.approvalId != first.approvalId && !UsesApproval(files, second.approvalId)
    requires !HasGrantFor(files, AcceptScope, first.subject)
    ensures GrantOutcome(Apply(files, Call(GrantOp(first), git, now)), git', second, now').Success?
  {
    hide Distinct, RevokesHaveGrants, OneGrantEach, WellNamed;
    var files' := Apply(files, Call(GrantOp(first), git, now));
    ApplyKeepsSound(files, Call(GrantOp(first), git, now));
    GrantExactly(files, git, first, now);
    hide GrantOutcome;
    StillStands(files, files', first, second);
    GrantExactly(files', git', second, now');
  }

  lemma StillStands(files: Files, files': Files, first: GrantArgs, second: GrantArgs)
    requires forall e :: e in files' ==>
      (e in files && files'[e] == files[e])
      || (e == first.eventId && files'[e].GrantRecord? && files'[e].grant.scope == DispatchScope
          && files'[e].grant.approvalId == first.approvalId)
    requires second.scope == AcceptScope && second.approvalId != first.approvalId && second.eventId != first.eventId
    requires GrantStands(files, second)
    ensures GrantStands(files', second)
  {
    if HasGrantFor(files', second.scope, second.subject) {
      var e :| IsGrantFor(files', e, second.scope, second.subject);
      assert IsGrantFor(files, e, second.scope, second.subject);
    }
  }
}
