/** What holds of every approval store that the two writers can produce. */
module ApprovalRuns {
  import opened Wrappers
  import opened Approvals

  // ---- Loaded evidence is the files, indexed by approval ----------------------------------------------------------

  lemma GrantLoaded(files: Files, e: EventId)
    requires Distinct(files) && e in files && files[e].GrantRecord?
    ensures files[e].grant.approvalId in GrantsOf(files)
    ensures GrantsOf(files)[files[e].grant.approvalId] == files[e].grant
  {
  }

  lemma RevokeLoaded(files: Files, e: EventId)
    requires Distinct(files) && e in files && files[e].RevokeRecord?
    ensures files[e].revoke.approvalId in RevokesOf(files)
    ensures RevokesOf(files)[files[e].revoke.approvalId] == files[e].revoke
  {
  }

  lemma GrantFile(files: Files, a: ApprovalId) returns (e: EventId)
    requires Distinct(files) && a in GrantsOf(files)
    ensures e in files && files[e] == GrantRecord(GrantsOf(files)[a]) && GrantsOf(files)[a].approvalId == a
  {
    e :| e in files && files[e].GrantRecord? && files[e].grant.approvalId == a;
  }

  lemma RevokeFile(files: Files, a: ApprovalId) returns (e: EventId)
    requires Distinct(files) && a in RevokesOf(files)
    ensures e in files && files[e] == RevokeRecord(RevokesOf(files)[a]) && RevokesOf(files)[a].approvalId == a
  {
    e :| e in files && files[e].RevokeRecord? && files[e].revoke.approvalId == a;
  }

  // ---- Stores the writers produce --------------------------------------------------------------------------------

  predicate IsGrant(files: Files, e: EventId) { e in files && files[e].GrantRecord? }

  ghost predicate HasGrant(files: Files, a: ApprovalId) {
    exists e :: IsGrant(files, e) && files[e].grant.approvalId == a
  }

  predicate SameSubject(g: Grant, h: Grant) { g.scope == h.scope && g.subject == h.subject }

  predicate WellNamed(files: Files) { forall e :: e in files ==> files[e].EventId() == e }

  ghost predicate RevokesHaveGrants(files: Files) {
    forall e :: e in files && files[e].RevokeRecord? ==> HasGrant(files, files[e].revoke.approvalId)
  }

  ghost predicate OneGrantEach(files: Files) {
    forall e, f :: IsGrant(files, e) && IsGrant(files, f) && SameSubject(files[e].grant, files[f].grant) ==> e == f
  }

  /** Distinct, well-named records; every revoke has its grant; at most one grant for a scope and subject. */
  ghost predicate Sound(files: Files) {
    Distinct(files) && WellNamed(files) && RevokesHaveGrants(files) && OneGrantEach(files)
  }

  lemma SoundEmpty()
    ensures Sound(map[])
  {
  }

  predicate NewIds(files: Files, r: Record)
    requires Distinct(files)
  {
    && !EventIdTaken(EvidenceOf(files), r.EventId())
    && (if r.GrantRecord? then r.ApprovalId() !in GrantsOf(files) else r.ApprovalId() !in RevokesOf(files))
  }

  lemma NoClash(files: Files, f: EventId, r: Record)
    requires Distinct(files) && f in files && NewIds(files, r)
    ensures !Clash(files[f], r) && !Clash(r, files[f])
  {
    hide GrantsOf, RevokesOf, Distinct;
    if files[f].GrantRecord? {
      GrantLoaded(files, f);
    } else {
      RevokeLoaded(files, f);
    }
  }

  /** A record whose ids are new to the loaded evidence clashes with no file. */
  lemma StaysDistinct(files: Files, e: EventId, r: Record)
    requires Distinct(files) && NewIds(files, r) && e !in files
    ensures Distinct(files[e := r])
  {
    hide NewIds, Clash;
    var files' := files[e := r];
    forall x, y | x in files' && y in files' && x != y ensures !Clash(files'[x], files'[y]) {
      if x == e {
        NoClash(files, y, r);
      } else if y == e {
        NoClash(files, x, r);
      }
    }
  }

  lemma RevokesKeepGrants(files: Files, e: EventId, r: Record)
    requires RevokesHaveGrants(files) && e !in files
    requires r.RevokeRecord? ==> HasGrant(files, r.revoke.approvalId)
    ensures RevokesHaveGrants(files[e := r])
  {
    var files' := files[e := r];
    forall f | f in files' && files'[f].RevokeRecord? ensures HasGrant(files', files'[f].revoke.approvalId) {
      var h :| IsGrant(files, h) && files[h].grant.approvalId == files'[f].revoke.approvalId;
      assert IsGrant(files', h);
    }
  }

  lemma GrantKeepsSound(files: Files, git: Git, args: GrantArgs, now: Instant)
    requires Sound(files) && GrantOutcome(files, git, args, now).Success?
    ensures Sound(files[args.eventId := GrantRecord(GrantOutcome(files, git, args, now).value)])
  {
    hide GrantsOf, RevokesOf, Distinct, RevokesHaveGrants;
    var r := GrantRecord(GrantOutcome(files, git, args, now).value);
    StaysDistinct(files, args.eventId, r);
    RevokesKeepGrants(files, args.eventId, r);
    if args.approvalId in RevokesOf(files) {
      var e := RevokeFile(files, args.approvalId);
      GrantOfRevoke(files, e);
    }
    forall e | IsGrant(files, e) ensures !SameSubject(files[e].grant, r.grant) && !SameSubject(r.grant, files[e].grant) {
      GrantLoaded(files, e);
    }
  }

  lemma GrantOfRevoke(files: Files, e: EventId)
    requires Distinct(files) && RevokesHaveGrants(files) && e in files && files[e].RevokeRecord?
    ensures files[e].revoke.approvalId in GrantsOf(files)
  {
    hide GrantsOf, RevokesOf, Distinct;
    var h :| IsGrant(files, h) && files[h].grant.approvalId == files[e].revoke.approvalId;
    GrantLoaded(files, h);
  }

  lemma RevokeKeepsSound(files: Files, git: Git, args: RevokeArgs, now: Instant)
    requires Sound(files) && RevokeOutcome(files, git, args, now).Success?
    ensures Sound(files[args.eventId := RevokeRecord(RevokeOutcome(files, git, args, now).value)])
  {
    hide GrantsOf, RevokesOf, Distinct, RevokesHaveGrants;
    var r := RevokeRecord(RevokeOutcome(files, git, args, now).value);
    var h := GrantFile(files, args.approvalId);
    assert IsGrant(files, h);
    StaysDistinct(files, args.eventId, r);
    RevokesKeepGrants(files, args.eventId, r);
  }

  /** Both writers keep the store sound and never change a file that is there. */
  lemma ApplyKeepsSound(files: Files, call: Call)
    requires Sound(files)
    ensures Sound(Apply(files, call)) && Extends(Apply(files, call), files)
  {
    match call.op
    case GrantOp(args) =>
      if GrantOutcome(files, call.git, args, call.now).Success? {
        GrantKeepsSound(files, call.git, args, call.now);
      }
    case RevokeOp(args) =>
      if RevokeOutcome(files, call.git, args, call.now).Success? {
        RevokeKeepsSound(files, call.git, args, call.now);
      }
  }

  predicate Extends(later: Files, files: Files) {
    forall e :: e in files ==> e in later && later[e] == files[e]
  }

  lemma {:induction false} RunKeepsSound(files: Files, calls: seq<Call>)
    requires Sound(files)
    ensures Sound(Run(files, calls)) && Extends(Run(files, calls), files)
    decreases |calls|
  {
    hide Sound, Apply;
    if calls != [] {
      ApplyKeepsSound(files, calls[0]);
      RunKeepsSound(Apply(files, calls[0]), calls[1..]);
    }
  }

  // ---- What the gate says about sound stores ---------------------------------------------------------------------

  /** With its grant in the store, the verdict on a request is read off that grant and its revoke. */
  function VerdictOn(files: Files, e: EventId, now: Instant): Verdict
    requires Distinct(files) && IsGrant(files, e)
  {
    var g := files[e].grant;
    if IsRevoked(EvidenceOf(files), g, now) then Revoked else if IsExpired(g, now) then Expired else Passed(g)
  }

  lemma ExactUnique(files: Files, e: EventId, request: CheckRequest)
    requires Sound(files) && IsGrant(files, e) && Exact(files[e].grant, request)
    ensures ExactIds(EvidenceOf(files), request) == {files[e].grant.approvalId}
  {
    hide GrantsOf, RevokesOf, Distinct, RevokesHaveGrants, WellNamed;
    GrantLoaded(files, e);
    forall a | a in ExactIds(EvidenceOf(files), request) ensures a == files[e].grant.approvalId {
      var f := GrantFile(files, a);
      assert IsGrant(files, f) && SameSubject(files[f].grant, files[e].grant);
    }
  }

  lemma JudgeExact(files: Files, e: EventId, request: CheckRequest, now: Instant)
    requires Sound(files) && IsGrant(files, e) && Exact(files[e].grant, request)
    ensures Judge(EvidenceOf(files), request, now) == Success(VerdictOn(files, e, now))
  {
    var ev := EvidenceOf(files);
    var g := files[e].grant;
    GrantLoaded(files, e);
    ExactUnique(files, e, request);
    hide GrantsOf, RevokesOf, Distinct, Sound, ExactIds;
    if Active(ev, g, now) {
      assert ActiveIds(ev, request, now) == {g.approvalId};
    } else {
      assert ActiveIds(ev, request, now) == {};
      assert IsRevoked(ev, g, now) <==> RevokedIds(ev, request, now) == {g.approvalId};
    }
  }

  lemma NoExactIds(files: Files, request: CheckRequest)
    requires Distinct(files)
    requires forall e :: IsGrant(files, e) ==> !Exact(files[e].grant, request)
    ensures ExactIds(EvidenceOf(files), request) == {}
  {
    hide GrantsOf, RevokesOf, Distinct;
    var ids := ExactIds(EvidenceOf(files), request);
    if ids != {} {
      var a :| a in ids;
      var _ := GrantFile(files, a);
    }
  }

  /** Without an exact grant, the gate answers with one of the three ways of not finding it. */
  lemma JudgeNoExact(files: Files, request: CheckRequest, now: Instant)
    requires Distinct(files)
    requires forall e :: IsGrant(files, e) ==> !Exact(files[e].grant, request)
    ensures Judge(EvidenceOf(files), request, now) in {Success(WrongScope), Success(WrongSubject), Success(NotFound)}
  {
    NoExactIds(files, request);
    NoneActive(EvidenceOf(files), request, now);
    hide EvidenceOf, Distinct, ExactIds, ActiveIds, RevokedIds, SubjectElsewhere, OtherSubject;
  }

  lemma NoneActive(ev: Evidence, request: CheckRequest, now: Instant)
    requires ExactIds(ev, request) == {}
    ensures ActiveIds(ev, request, now) == {} == RevokedIds(ev, request, now)
  {
    hide ExactIds;
  }

  /** On every store the writers can produce, the gate never finds the evidence invalid or ambiguous. */
  lemma NeverAmbiguous(calls: seq<Call>, git: Git, request: CheckRequest, now: Instant)
    ensures var checked := Check(Run(map[], calls), git, request, now);
            checked.Success? || checked == Failure(SnapshotConflict)
  {
    SoundEmpty();
    RunKeepsSound(map[], calls);
    CheckAnswers(Run(map[], calls), git, request, now);
  }

  lemma CheckAnswers(files: Files, git: Git, request: CheckRequest, now: Instant)
    requires Sound(files)
    ensures var checked := Check(files, git, request, now);
            checked.Success? || checked == Failure(SnapshotConflict)
  {
    hide GrantsOf, RevokesOf, Distinct, Judge, WellNamed, RevokesHaveGrants, OneGrantEach;
    if e :| IsGrant(files, e) && Exact(files[e].grant, request) {
      JudgeExact(files, e, request, now);
    } else {
      JudgeNoExact(files, request, now);
    }
  }

  predicate IsDead(v: Result<Verdict, ApprovalError>) { v == Success(Revoked) || v == Success(Expired) }

  predicate IsPassed(v: Result<Verdict, ApprovalError>) { v.Success? && v.value.Passed? }

  /** A verdict of revoked, expired or passed comes from the one stored grant for the scope and subject. */
  lemma VerdictHasGrant(files: Files, git: Git, request: CheckRequest, now: Instant) returns (e: EventId)
    requires Sound(files)
    requires IsDead(Check(files, git, request, now)) || IsPassed(Check(files, git, request, now))
    ensures IsGrant(files, e) && Exact(files[e].grant, request)
    ensures Check(files, git, request, now) == Success(VerdictOn(files, e, now))
  {
    hide GrantsOf, RevokesOf, Distinct, Judge, WellNamed, RevokesHaveGrants, OneGrantEach;
    if forall f :: IsGrant(files, f) ==> !Exact(files[f].grant, request) {
      JudgeNoExact(files, request, now);
      assert false;
    }
    e :| IsGrant(files, e) && Exact(files[e].grant, request);
    JudgeExact(files, e, request, now);
  }

  /** A grant that is dead at one time is dead in every larger sound store at every later time. */
  lemma DeadLater(files: Files, later: Files, e: EventId, now: Instant, then': Instant)
    requires Sound(files) && Sound(later) && Extends(later, files) && IsGrant(files, e) && now <= then'
    requires !VerdictOn(files, e, now).Passed?
    ensures IsGrant(later, e) && !VerdictOn(later, e, then').Passed?
  {
    hide GrantsOf, RevokesOf, Distinct, RevokesHaveGrants, OneGrantEach, WellNamed;
    var g := files[e].grant;
    if IsRevoked(EvidenceOf(files), g, now) {
      var f := RevokeFile(files, g.approvalId);
      RevokeLoaded(later, f);
    }
  }

  lemma DeadInLaterStore(files: Files, git: Git, request: CheckRequest, now: Instant,
                         later: Files, git': Git, request': CheckRequest, now': Instant)
    requires Sound(files) && Sound(later) && Extends(later, files) && IsDead(Check(files, git, request, now))
    requires now <= now' && request'.scope == request.scope && request'.subject == request.subject
    ensures !IsPassed(Check(later, git', request', now'))
  {
    hide GrantsOf, RevokesOf, Distinct, Judge, VerdictOn, RevokesHaveGrants, OneGrantEach, WellNamed;
    var e := VerdictHasGrant(files, git, request, now);
    DeadLater(files, later, e, now, now');
    JudgeExact(later, e, request', now');
  }

  /** Dead approvals stay dead: once the gate answers revoked or expired, no run of grants and revokes makes the same
      scope and subject pass again, at that time or any later one, whatever HEAD has become. */
  lemma DeadStaysDead(files: Files, git: Git, request: CheckRequest, now: Instant,
                      calls: seq<Call>, git': Git, request': CheckRequest, now': Instant)
    requires Sound(files) && IsDead(Check(files, git, request, now))
    requires now <= now' && request'.scope == request.scope && request'.subject == request.subject
    ensures !IsPassed(Check(Run(files, calls), git', request', now'))
  {
    RunKeepsSound(files, calls);
    DeadInLaterStore(files, git, request, now, Run(files, calls), git', request', now');
    hide Sound, Check, Run;
  }

  /** A grant for a scope and subject that was ever granted is refused, whatever became of the first one. */
  lemma SecondGrantRefused(files: Files, e: EventId, git: Git, args: GrantArgs, now: Instant)
    requires Sound(files) && IsGrant(files, e)
    requires files[e].grant.scope == args.scope && files[e].grant.subject == args.subject
    ensures GrantOutcome(files, git, args, now).Failure?
  {
    if GrantOutcome(files, git, args, now).Success? {
      GrantKeepsSound(files, git, args, now);
      var files' := files[args.eventId := GrantRecord(GrantOutcome(files, git, args, now).value)];
      assert IsGrant(files', e) && IsGrant(files', args.eventId);
    }
  }

  /** A fresh grant passes the gate at once, at exactly the times before it expires, as long as nothing is added; under an
      id that is no file name it is never seen. */
  lemma GrantPasses(files: Files, git: Git, args: GrantArgs, now: Instant, git': Git, then': Instant)
    requires Sound(files) && GrantOutcome(files, git, args, now).Success?
    ensures var files' := Stored(files, args.eventId, GrantRecord(NewGrant(git, args, now)));
      Sound(files') && (!IsFileName(args.eventId.text) ==> files' == files) &&
      (IsFileName(args.eventId.text) && AncestryHolds(EvidenceOf(files'), git') ==>
        Check(files', git', CheckRequest(args.scope, args.subject, git'.head), then')
          == Success(if args.expiresAt.Some? && then' >= args.expiresAt.value then Expired
                     else Passed(NewGrant(git, args, now))))
  {
    hide GrantsOf, RevokesOf, Distinct, RevokesHaveGrants, OneGrantEach, WellNamed, Judge;
    var g := NewGrant(git, args, now);
    var files' := files[args.eventId := GrantRecord(g)];
    GrantKeepsSound(files, git, args, now);
    if g.approvalId in RevokesOf(files') {
      var e := RevokeFile(files', g.approvalId);
      RevokeLoaded(files, e);
      GrantOfRevoke(files, e);
    }
    JudgeExact(files', args.eventId, CheckRequest(args.scope, args.subject, git'.head), then');
  }

  /** A revoke takes effect at its own instant and for good, although it is stored in whole seconds, exactly if its id is
      a file name; under any other id it is accepted and never read. */
  lemma RevokeTakesEffect(files: Files, git: Git, args: RevokeArgs, now: Instant, git': Git, then': Instant)
    requires Sound(files) && RevokeOutcome(files, git, args, now).Success? && now <= then'
    ensures var files' := Stored(files, args.eventId, RevokeRecord(RevokeOutcome(files, git, args, now).value));
      Sound(files') && args.approvalId in GrantsOf(files) && (!IsFileName(args.eventId.text) ==> files' == files)
    ensures var files' := Stored(files, args.eventId, RevokeRecord(RevokeOutcome(files, git, args, now).value));
      var g := GrantsOf(files)[args.approvalId];
      var verdict := Check(files', git', CheckRequest(g.scope, g.subject, git'.head), then');
      AncestryHolds(EvidenceOf(files'), git') ==> (verdict == Success(Revoked) <==> IsFileName(args.eventId.text))
  {
    hide GrantsOf, RevokesOf, Distinct, RevokesHaveGrants, OneGrantEach, WellNamed, Judge;
    var r := RevokeOutcome(files, git, args, now).value;
    var e := GrantFile(files, args.approvalId);
    if IsFileName(args.eventId.text) {
      var files' := files[args.eventId := RevokeRecord(r)];
      RevokeKeepsSound(files, git, args, now);
      assert IsGrant(files', e) && files'[e] == files[e];
      RevokeLoaded(files', args.eventId);
      JudgeExact(files', e, CheckRequest(files[e].grant.scope, files[e].grant.subject, git'.head), then');
    } else {
      JudgeExact(files, e, CheckRequest(files[e].grant.scope, files[e].grant.subject, git'.head), then');
    }
  }

  /** What a passed requirement says about the store. */
  lemma PassedMeans(files: Files, git: Git, request: CheckRequest, now: Instant)
    requires Sound(files) && Require(files, git, request, now).Success?
    ensures
      var g := Require(files, git, request, now).value;
      && g.eventId in files && files[g.eventId] == GrantRecord(g)
      && Exact(g, request) && git.head == request.expectedSnapshot && !IsExpired(g, now)
      && (forall e :: e in files && files[e].RevokeRecord? && files[e].revoke.approvalId == g.approvalId
            ==> now < files[e].revoke.revokedAt)
  {
    hide GrantsOf, RevokesOf, Distinct, RevokesHaveGrants, OneGrantEach, Judge;
    var e := VerdictHasGrant(files, git, request, now);
    var g := files[e].grant;
    forall f | f in files && files[f].RevokeRecord? && files[f].revoke.approvalId == g.approvalId
      ensures now < files[f].revoke.revokedAt
    {
      RevokeLoaded(files, f);
    }
  }
}
