/** The append-only approval store: its loader, its two writers and the gate (`approval_gate.py`). */
module Approvals {
  import opened Wrappers

  // Identifiers are texts; apart from the files they are printed to, they are only compared for equality.
  datatype TaskId = TaskId(text: string)
  datatype DispatchId = DispatchId(text: string)
  datatype Commit = Commit(text: string)
  datatype EventId = EventId(text: string)
  datatype ApprovalId = ApprovalId(text: string)
  type Reason(==, !new)

  /** An instant, in microseconds. */
  type Instant = int

  const SECOND: int := 1_000_000

  /** The stored form of an instant has whole seconds. */
  function FloorSecond(t: Instant): (s: Instant)
    ensures s <= t < s + SECOND && s % SECOND == 0
  {
    t - t % SECOND
  }

  datatype Scope = DispatchScope | AcceptScope | IntegrateScope

  datatype Subject =
    Subject(taskId: TaskId, revision: int, attempt: int, dispatchId: DispatchId, acceptedCommit: Option<Commit>)

  datatype Grant = Grant(
    approvalId: ApprovalId, eventId: EventId, scope: Scope, subject: Subject,
    leaseEpoch: int, grantedAt: Instant, expiresAt: Option<Instant>, reason: Reason, snapshot: Commit)

  datatype Revoke = Revoke(
    approvalId: ApprovalId, eventId: EventId, taskId: TaskId,
    leaseEpoch: int, revokedAt: Instant, reason: Reason, snapshot: Commit)

  datatype Record = GrantRecord(grant: Grant) | RevokeRecord(revoke: Revoke) {
    function EventId(): EventId { if GrantRecord? then grant.eventId else revoke.eventId }
    function ApprovalId(): ApprovalId { if GrantRecord? then grant.approvalId else revoke.approvalId }
  }

  /** The evidence files that the loader reads: file name (without extension) to content. */
  type Files = map<EventId, Record>

  /** What Git answers while the state lock is held: HEAD, and the ancestors of HEAD other than HEAD itself. */
  datatype Git = Git(head: Commit, ancestors: set<Commit>) {
    predicate IsAncestor(c: Commit) { c == head || c in ancestors }
  }

  datatype ApprovalError =
    | InvalidArgument | ValidationError | NotFoundError | AmbiguousError | ExpiredError | RevokedError | SnapshotConflict

  // ---- Listings --------------------------------------------------------------------------------------------------

  /** A listing of a set in some order: directory entries and dictionaries come in no particular one. */
  ghost predicate Lists<T(!new)>(order: seq<T>, s: set<T>) {
    && (forall x :: x in order <==> x in s)
    && (forall i, j :: 0 <= i < j < |order| ==> order[i] != order[j])
  }

  lemma {:induction false} ListsCount<T(!new)>(order: seq<T>, s: set<T>)
    requires Lists(order, s)
    ensures |order| == |s|
  {
    if order == [] {
      assert s == {};
    } else {
      var n := |order| - 1;
      assert order == order[..n] + [order[n]];
      assert Lists(order[..n], s - {order[n]});
      ListsCount(order[..n], s - {order[n]});
    }
  }

  method Listing<T(==, !new)>(s: set<T>) returns (order: seq<T>)
    ensures Lists(order, s)
  {
    var rest := s;
    order := [];
    while rest != {}
      invariant rest <= s && Lists(order, s - rest)
    {
      var x :| x in rest;
      rest := rest - {x};
      order := order + [x];
    }
  }

  // ---- Loading ---------------------------------------------------------------------------------------------------

  datatype Evidence = Evidence(grants: map<ApprovalId, Grant>, revokes: map<ApprovalId, Revoke>)

  predicate SameApproval(r: Record, s: Record) {
    r.GrantRecord? == s.GrantRecord? && r.ApprovalId() == s.ApprovalId()
  }

  /** Two files that the loader does not accept together. */
  predicate Clash(r: Record, s: Record) { SameApproval(r, s) || r.EventId() == s.EventId() }

  predicate Distinct(files: Files) {
    forall e, f :: e in files && f in files && e != f ==> !Clash(files[e], files[f])
  }

  function GrantsOf(files: Files): map<ApprovalId, Grant>
    requires Distinct(files)
  {
    map e | e in files && files[e].GrantRecord? :: files[e].grant.approvalId := files[e].grant
  }

  function RevokesOf(files: Files): map<ApprovalId, Revoke>
    requires Distinct(files)
  {
    map e | e in files && files[e].RevokeRecord? :: files[e].revoke.approvalId := files[e].revoke
  }

  function EvidenceOf(files: Files): Evidence
    requires Distinct(files)
  {
    Evidence(GrantsOf(files), RevokesOf(files))
  }

  function Load(files: Files): Result<Evidence, ApprovalError> {
    if Distinct(files) then Success(EvidenceOf(files)) else Failure(ValidationError)
  }

  // ---- The gate --------------------------------------------------------------------------------------------------

  datatype CheckRequest = CheckRequest(scope: Scope, subject: Subject, expectedSnapshot: Commit)

  datatype Verdict = Passed(evidence: Grant) | Revoked | Expired | WrongScope | WrongSubject | NotFound

  predicate IsExpired(g: Grant, now: Instant) { g.expiresAt.Some? && now >= g.expiresAt.value }

  predicate IsRevoked(ev: Evidence, g: Grant, now: Instant) {
    g.approvalId in ev.revokes && now >= ev.revokes[g.approvalId].revokedAt
  }

  predicate Exact(g: Grant, request: CheckRequest) { g.scope == request.scope && g.subject == request.subject }

  predicate Active(ev: Evidence, g: Grant, now: Instant) { !IsRevoked(ev, g, now) && !IsExpired(g, now) }

  predicate SubjectElsewhere(g: Grant, request: CheckRequest) {
    g.subject == request.subject && g.scope != request.scope
  }

  predicate OtherSubject(g: Grant, request: CheckRequest) {
    g.subject.taskId == request.subject.taskId && g.scope == request.scope && g.subject != request.subject
  }

  function ExactIds(ev: Evidence, request: CheckRequest): set<ApprovalId> {
    set a | a in ev.grants && Exact(ev.grants[a], request)
  }

  function RevokedIds(ev: Evidence, request: CheckRequest, now: Instant): set<ApprovalId> {
    set a | a in ExactIds(ev, request) && IsRevoked(ev, ev.grants[a], now)
  }

  function ActiveIds(ev: Evidence, request: CheckRequest, now: Instant): set<ApprovalId> {
    set a | a in ExactIds(ev, request) && Active(ev, ev.grants[a], now)
  }

  predicate AncestryHolds(ev: Evidence, git: Git) {
    && (forall a :: a in ev.grants ==> git.IsAncestor(ev.grants[a].snapshot))
    && (forall a :: a in ev.revokes ==> git.IsAncestor(ev.revokes[a].snapshot))
  }

  /** The verdict on loaded evidence, in terms of sets only. */
  ghost function Judge(ev: Evidence, request: CheckRequest, now: Instant): Result<Verdict, ApprovalError> {
    var active := ActiveIds(ev, request, now);
    if |active| == 1 then
      var a :| a in active;
      Success(Passed(ev.grants[a]))
    else if |active| > 1 then Failure(AmbiguousError)
    else if RevokedIds(ev, request, now) != {} then Success(Revoked)
    else if ExactIds(ev, request) != {} then Success(Expired)
    else if exists a :: a in ev.grants && SubjectElsewhere(ev.grants[a], request) then Success(WrongScope)
    else if exists a :: a in ev.grants && OtherSubject(ev.grants[a], request) then Success(WrongSubject)
    else Success(NotFound)
  }

  /** `ApprovalGate.check`. */
  ghost function Check(files: Files, git: Git, request: CheckRequest, now: Instant): Result<Verdict, ApprovalError> {
    if git.head != request.expectedSnapshot then Failure(SnapshotConflict)
    else if !Distinct(files) then Failure(ValidationError)
    else if !AncestryHolds(EvidenceOf(files), git) then Failure(SnapshotConflict)
    else Judge(EvidenceOf(files), request, now)
  }

  /** `ApprovalGate.require`. */
  ghost function Require(files: Files, git: Git, request: CheckRequest, now: Instant): Result<Grant, ApprovalError> {
    match Check(files, git, request, now)
    case Failure(e) => Failure(e)
    case Success(Passed(g)) => Success(g)
    case Success(Expired) => Failure(ExpiredError)
    case Success(Revoked) => Failure(RevokedError)
    case Success(_) => Failure(NotFoundError)
  }

  // ---- The writers -----------------------------------------------------------------------------------------------

  datatype GrantArgs = GrantArgs(
    approvalId: ApprovalId, eventId: EventId, scope: Scope, subject: Subject, leaseEpoch: int,
    expiresAt: Option<Instant>, reason: Reason, expectedSnapshot: Commit)

  datatype RevokeArgs = RevokeArgs(
    approvalId: ApprovalId, eventId: EventId, leaseEpoch: int, reason: Reason, expectedSnapshot: Commit)

  /** Only an integration is tied to an accepted commit. */
  predicate ScopeFits(scope: Scope, subject: Subject) {
    subject.acceptedCommit.Some? <==> scope == IntegrateScope
  }

  predicate EventIdTaken(ev: Evidence, e: EventId) {
    || (exists a :: a in ev.grants && ev.grants[a].eventId == e)
    || (exists a :: a in ev.revokes && ev.revokes[a].eventId == e)
  }

  /** The duplicate rule as written: an exact grant blocks unless the new approval id itself has been revoked. */
  predicate BlockedByExact(ev: Evidence, args: GrantArgs) {
    exists a :: a in ev.grants && ev.grants[a].scope == args.scope && ev.grants[a].subject == args.subject
                && args.approvalId !in ev.revokes
  }

  function NewGrant(git: Git, args: GrantArgs, now: Instant): Grant {
    Grant(args.approvalId, args.eventId, args.scope, args.subject, args.leaseEpoch, FloorSecond(now),
          args.expiresAt, args.reason, git.head)
  }

  function NewRevoke(git: Git, args: RevokeArgs, taskId: TaskId, now: Instant): Revoke {
    Revoke(args.approvalId, args.eventId, taskId, args.leaseEpoch, FloorSecond(now), args.reason, git.head)
  }

  /** The record `write_grant` adds, or why it refuses. */
  function GrantOutcome(files: Files, git: Git, args: GrantArgs, now: Instant): Result<Grant, ApprovalError> {
    if !ScopeFits(args.scope, args.subject) || args.leaseEpoch < 1 then Failure(InvalidArgument)
    else if git.head != args.expectedSnapshot then Failure(SnapshotConflict)
    else if args.expiresAt.Some? && args.expiresAt.value <= FloorSecond(now) then Failure(ValidationError)
    else if !Distinct(files) then Failure(ValidationError)
    else
      var ev := EvidenceOf(files);
      if args.approvalId in ev.grants || EventIdTaken(ev, args.eventId) || BlockedByExact(ev, args)
         || args.eventId in files
      then Failure(ValidationError)
      else Success(NewGrant(git, args, now))
  }

  /** The record `write_revoke` adds, or why it refuses. */
  function RevokeOutcome(files: Files, git: Git, args: RevokeArgs, now: Instant): Result<Revoke, ApprovalError> {
    if args.leaseEpoch < 1 then Failure(InvalidArgument)
    else if git.head != args.expectedSnapshot then Failure(SnapshotConflict)
    else if !Distinct(files) then Failure(ValidationError)
    else
      var ev := EvidenceOf(files);
      if args.approvalId !in ev.grants then Failure(NotFoundError)
      else if args.approvalId in ev.revokes then Failure(AmbiguousError)
      else if EventIdTaken(ev, args.eventId) || args.eventId in files then Failure(ValidationError)
      else Success(NewRevoke(git, args, ev.grants[args.approvalId].subject.taskId, now))
  }

  datatype Op = GrantOp(grant: GrantArgs) | RevokeOp(revoke: RevokeArgs)

  /** A writer call under a given Git state at a given time. */
  datatype Call = Call(op: Op, git: Git, now: Instant) {
    function EventId(): EventId { if op.GrantOp? then op.grant.eventId else op.revoke.eventId }

    /** The record this call writes, if it is accepted. */
    function Written(files: Files): Result<Record, ApprovalError> {
      match op
      case GrantOp(args) => (var g :- GrantOutcome(files, git, args, now); Success(GrantRecord(g)))
      case RevokeOp(args) => (var r :- RevokeOutcome(files, git, args, now); Success(RevokeRecord(r)))
    }
  }

  /** What the loader takes for the name of an evidence file; the id of any other record leads to a place that it does not
      list or does not read. */
  predicate IsFileName(s: string) { '/' !in s && '\\' !in s && '\0' !in s }

  /** The files the loader reads, after this record is written. */
  function Stored(files: Files, e: EventId, r: Record): Files { if IsFileName(e.text) then files[e := r] else files }

  function Apply(files: Files, call: Call): Files {
    var written := call.Written(files);
    if written.Success? then Stored(files, call.EventId(), written.value) else files
  }

  function Run(files: Files, calls: seq<Call>): Files
    decreases |calls|
  {
    if calls == [] then files else Run(Apply(files, calls[0]), calls[1..])
  }
}
