/** The imperative form of the approval store: the loader's and the gate's loops, and the writers on the directory. */
module ApprovalStore {
  import opened Wrappers
  import opened Approvals
  import opened ApprovalRuns

  // ---- The loader's first loop: index by approval, refusing a repeated approval id -------------------------------

  function IndexOne(ev: Evidence, r: Record): Option<Evidence> {
    match r
    case GrantRecord(g) =>
      if g.approvalId in ev.grants then None else Some(ev.(grants := ev.grants[g.approvalId := g]))
    case RevokeRecord(v) =>
      if v.approvalId in ev.revokes then None else Some(ev.(revokes := ev.revokes[v.approvalId := v]))
  }

  function Index(records: seq<Record>): Option<Evidence> {
    if records == [] then Some(Evidence(map[], map[]))
    else
      match Index(records[..|records| - 1])
      case None => None
      case Some(ev) => IndexOne(ev, records[|records| - 1])
  }

  lemma {:induction false} IndexRefused(records: seq<Record>, n: nat)
    requires n <= |records| && Index(records[..n]) == None
    ensures Index(records) == None
    decreases |records| - n
  {
    if n == |records| {
      assert records[..n] == records;
    } else {
      assert records[..n + 1][..n] == records[..n];
      IndexRefused(records, n + 1);
    }
  }

  method IndexByApproval(records: seq<Record>) returns (r: Option<Evidence>)
    ensures r == Index(records)
  {
    var grants: map<ApprovalId, Grant> := map[];
    var revokes: map<ApprovalId, Revoke> := map[];
    for i := 0 to |records|
      invariant Index(records[..i]) == Some(Evidence(grants, revokes))
    {
      assert records[..i + 1][..i] == records[..i];
      var record := records[i];
      if record.GrantRecord? {
        if record.grant.approvalId in grants {
          IndexRefused(records, i + 1);
          return None;
        }
        grants := grants[record.grant.approvalId := record.grant];
      } else {
        if record.revoke.approvalId in revokes {
          IndexRefused(records, i + 1);
          return None;
        }
        revokes := revokes[record.revoke.approvalId := record.revoke];
      }
    }
    assert records[..|records|] == records;
    return Some(Evidence(grants, revokes));
  }

  predicate Indexed(ev: Evidence, r: Record) {
    match r
    case GrantRecord(g) => g.approvalId in ev.grants && ev.grants[g.approvalId] == g
    case RevokeRecord(v) => v.approvalId in ev.revokes && ev.revokes[v.approvalId] == v
  }

  /** Every record is indexed, and nothing else is. */
  predicate IndexIs(ev: Evidence, records: seq<Record>) {
    && (forall r :: r in records ==> Indexed(ev, r))
    && (forall a :: a in ev.grants ==> ev.grants[a].approvalId == a && GrantRecord(ev.grants[a]) in records)
    && (forall a :: a in ev.revokes ==> ev.revokes[a].approvalId == a && RevokeRecord(ev.revokes[a]) in records)
  }

  lemma {:induction false} IndexMeans(records: seq<Record>)
    ensures Index(records).Some? <==> forall i, j :: 0 <= i < j < |records| ==> !SameApproval(records[i], records[j])
    ensures Index(records).Some? ==> IndexIs(Index(records).value, records)
  {
    if records != [] {
      var init, last := records[..|records| - 1], records[|records| - 1];
      assert records == init + [last];
      IndexMeans(init);
      if Index(init).Some? {
        var ev := Index(init).value;
        IndexOneMeans(ev, init, last);
      }
    }
  }

  lemma IndexOneMeans(ev: Evidence, records: seq<Record>, r: Record)
    requires IndexIs(ev, records)
    ensures IndexOne(ev, r).Some? <==> forall s :: s in records ==> !SameApproval(s, r)
    ensures IndexOne(ev, r).Some? ==> IndexIs(IndexOne(ev, r).value, records + [r])
  {
    if r.GrantRecord? && r.grant.approvalId in ev.grants {
      assert SameApproval(GrantRecord(ev.grants[r.grant.approvalId]), r);
    }
    if r.RevokeRecord? && r.revoke.approvalId in ev.revokes {
      assert SameApproval(RevokeRecord(ev.revokes[r.revoke.approvalId]), r);
    }
  }

  // ---- The loader's second pass: no event id occurs twice --------------------------------------------------------

  predicate NoRepeat(ids: seq<EventId>) { forall i, j :: 0 <= i < j < |ids| ==> ids[i] != ids[j] }

  method CollectNew(ids: seq<EventId>, seen: set<EventId>) returns (ok: bool, seen': set<EventId>)
    ensures ok <==> NoRepeat(ids) && forall x :: x in ids ==> x !in seen
    ensures ok ==> seen' == seen + set x | x in ids
  {
    seen' := seen;
    for i := 0 to |ids|
      invariant NoRepeat(ids[..i]) && (forall x :: x in ids[..i] ==> x !in seen)
      invariant seen' == seen + set x | x in ids[..i]
    {
      assert ids[..i + 1] == ids[..i] + [ids[i]];
      if ids[i] in seen' {
        assert ids[i] in seen || exists j :: 0 <= j < i && ids[j] == ids[i];
        return false, seen';
      }
      seen' := seen' + {ids[i]};
    }
    assert ids[..|ids|] == ids;
    ok := true;
  }

  predicate EventIdsDistinct(ev: Evidence) {
    && (forall a, b :: a in ev.grants && b in ev.grants && a != b ==> ev.grants[a].eventId != ev.grants[b].eventId)
    && (forall a, b :: a in ev.revokes && b in ev.revokes && a != b ==> ev.revokes[a].eventId != ev.revokes[b].eventId)
    && (forall a, b :: a in ev.grants && b in ev.revokes ==> ev.grants[a].eventId != ev.revokes[b].eventId)
  }

  function GrantEvents(ev: Evidence, order: seq<ApprovalId>): (ids: seq<EventId>)
    requires forall a :: a in order ==> a in ev.grants
    ensures |ids| == |order| && forall i :: 0 <= i < |order| ==> ids[i] == ev.grants[order[i]].eventId
  {
    seq(|order|, i requires 0 <= i < |order| => assert order[i] in order; ev.grants[order[i]].eventId)
  }

  function RevokeEvents(ev: Evidence, order: seq<ApprovalId>): (ids: seq<EventId>)
    requires forall a :: a in order ==> a in ev.revokes
    ensures |ids| == |order| && forall i :: 0 <= i < |order| ==> ids[i] == ev.revokes[order[i]].eventId
  {
    seq(|order|, i requires 0 <= i < |order| => assert order[i] in order; ev.revokes[order[i]].eventId)
  }

  predicate InOrderDistinct(ev: Evidence, gs: seq<ApprovalId>, rs: seq<ApprovalId>)
    requires (forall a :: a in gs ==> a in ev.grants) && forall a :: a in rs ==> a in ev.revokes
  {
    && NoRepeat(GrantEvents(ev, gs)) && NoRepeat(RevokeEvents(ev, rs))
    && forall x :: x in RevokeEvents(ev, rs) ==> x !in GrantEvents(ev, gs)
  }

  lemma DistinctInOrder(ev: Evidence, gs: seq<ApprovalId>, rs: seq<ApprovalId>)
    requires Lists(gs, ev.grants.Keys) && Lists(rs, ev.revokes.Keys) && EventIdsDistinct(ev)
    ensures InOrderDistinct(ev, gs, rs)
  {
    var xs, ys := GrantEvents(ev, gs), RevokeEvents(ev, rs);
    forall i, j | 0 <= i < j < |xs| ensures xs[i] != xs[j] { assert gs[i] in gs && gs[j] in gs; }
    forall i, j | 0 <= i < j < |ys| ensures ys[i] != ys[j] { assert rs[i] in rs && rs[j] in rs; }
    forall i, j | 0 <= i < |ys| && 0 <= j < |xs| ensures ys[i] != xs[j] { assert rs[i] in rs && gs[j] in gs; }
  }

  lemma OrderedDistinct(ev: Evidence, gs: seq<ApprovalId>, rs: seq<ApprovalId>)
    requires Lists(gs, ev.grants.Keys) && Lists(rs, ev.revokes.Keys) && InOrderDistinct(ev, gs, rs)
    ensures EventIdsDistinct(ev)
  {
    var xs, ys := GrantEvents(ev, gs), RevokeEvents(ev, rs);
    forall a, b | a in ev.grants && b in ev.grants && a != b ensures ev.grants[a].eventId != ev.grants[b].eventId {
      var i :| 0 <= i < |gs| && gs[i] == a;
      var j :| 0 <= j < |gs| && gs[j] == b;
      assert xs[i] != xs[j];
    }
    forall a, b | a in ev.revokes && b in ev.revokes && a != b ensures ev.revokes[a].eventId != ev.revokes[b].eventId {
      var i :| 0 <= i < |rs| && rs[i] == a;
      var j :| 0 <= j < |rs| && rs[j] == b;
      assert ys[i] != ys[j];
    }
    forall a, b | a in ev.grants && b in ev.revokes ensures ev.grants[a].eventId != ev.revokes[b].eventId {
      var i :| 0 <= i < |gs| && gs[i] == a;
      var j :| 0 <= j < |rs| && rs[j] == b;
      assert ys[j] in ys && xs[i] in xs;
    }
  }

  // ---- The loader ------------------------------------------------------------------------------------------------

  function Contents(files: Files, order: seq<EventId>): (records: seq<Record>)
    requires forall e :: e in order ==> e in files
    ensures |records| == |order| && forall i :: 0 <= i < |order| ==> records[i] == files[order[i]]
  {
    seq(|order|, i requires 0 <= i < |order| => assert order[i] in order; files[order[i]])
  }

  /** Whatever the order of the directory, indexing succeeds on exactly the stores without a repeated id, and then
      yields the same evidence. */
  lemma IndexIsLoad(files: Files, order: seq<EventId>)
    requires Lists(order, files.Keys)
    ensures var index := Index(Contents(files, order));
      && (Distinct(files) <==> index.Some? && EventIdsDistinct(index.value))
      && (Distinct(files) ==> index.value == EvidenceOf(files))
  {
    assert forall e :: e in order ==> e in files;
    hide Index, EvidenceOf, Distinct, EventIdsDistinct, Lists, Clash;
    if Distinct(files) {
      IndexOfDistinct(files, order);
    } else if Index(Contents(files, order)).Some? {
      InOrder(files, order);
      ClashIsSeen(Contents(files, order));
    }
  }

  lemma ClashIsSeen(records: seq<Record>)
    requires Index(records).Some? && exists i, j :: 0 <= i < j < |records| && Clash(records[i], records[j])
    ensures !EventIdsDistinct(Index(records).value)
  {
    IndexMeans(records);
    hide Index;
    var i, j :| 0 <= i < j < |records| && Clash(records[i], records[j]);
    assert records[i] in records && records[j] in records;
    assert !SameApproval(records[i], records[j]);
  }

  lemma InOrder(files: Files, order: seq<EventId>)
    requires Lists(order, files.Keys)
    ensures Distinct(files) <==>
      forall i, j :: 0 <= i < j < |order| ==> !Clash(Contents(files, order)[i], Contents(files, order)[j])
  {
    var records := Contents(files, order);
    if Distinct(files) {
      forall i, j | 0 <= i < j < |order| ensures !Clash(records[i], records[j]) {
        assert order[i] in files && order[j] in files && order[i] != order[j];
      }
    } else {
      var e, f :| e in files && f in files && e != f && Clash(files[e], files[f]);
      assert e in order && f in order;
      var i :| 0 <= i < |order| && order[i] == e;
      var j :| 0 <= j < |order| && order[j] == f;
      assert Clash(records[i], records[j]) && Clash(records[j], records[i]);
    }
  }

  lemma IndexOfDistinct(files: Files, order: seq<EventId>)
    requires Lists(order, files.Keys) && Distinct(files)
    ensures Index(Contents(files, order)) == Some(EvidenceOf(files)) && EventIdsDistinct(EvidenceOf(files))
  {
    var records := Contents(files, order);
    var loaded := EvidenceOf(files);
    InOrder(files, order);
    IndexMeans(records);
    LoadedEventsDistinct(files);
    hide Distinct, EvidenceOf, EventIdsDistinct, Lists, IndexIs;
    var ev := Index(records).value;
    GrantsAgree(files, order, ev);
    RevokesAgree(files, order, ev);
    assert ev == Evidence(GrantsOf(files), RevokesOf(files)) == EvidenceOf(files);
  }

  lemma GrantsAgree(files: Files, order: seq<EventId>, ev: Evidence)
    requires Lists(order, files.Keys) && Distinct(files) && IndexIs(ev, Contents(files, order))
    ensures ev.grants == GrantsOf(files)
  {
    hide Distinct, GrantsOf;
    var records := Contents(files, order);
    forall a | a in ev.grants ensures a in GrantsOf(files) && ev.grants[a] == GrantsOf(files)[a] {
      var i :| 0 <= i < |records| && records[i] == GrantRecord(ev.grants[a]);
      assert order[i] in order;
      GrantLoaded(files, order[i]);
    }
    forall a | a in GrantsOf(files) ensures a in ev.grants {
      var e := GrantFile(files, a);
      var i :| 0 <= i < |order| && order[i] == e;
      assert records[i] in records;
    }
  }

  lemma RevokesAgree(files: Files, order: seq<EventId>, ev: Evidence)
    requires Lists(order, files.Keys) && Distinct(files) && IndexIs(ev, Contents(files, order))
    ensures ev.revokes == RevokesOf(files)
  {
    hide Distinct, RevokesOf;
    var records := Contents(files, order);
    forall a | a in ev.revokes ensures a in RevokesOf(files) && ev.revokes[a] == RevokesOf(files)[a] {
      var i :| 0 <= i < |records| && records[i] == RevokeRecord(ev.revokes[a]);
      assert order[i] in order;
      RevokeLoaded(files, order[i]);
    }
    forall a | a in RevokesOf(files) ensures a in ev.revokes {
      var e := RevokeFile(files, a);
      var i :| 0 <= i < |order| && order[i] == e;
      assert records[i] in records;
    }
  }

  lemma LoadedEventsDistinct(files: Files)
    requires Distinct(files)
    ensures EventIdsDistinct(EvidenceOf(files))
  {
    hide GrantsOf, RevokesOf;
    var ev := EvidenceOf(files);
    forall a, b | a in ev.grants && b in ev.grants && a != b ensures ev.grants[a].eventId != ev.grants[b].eventId {
      var e := GrantFile(files, a);
      var f := GrantFile(files, b);
      assert !Clash(files[e], files[f]);
    }
    forall a, b | a in ev.revokes && b in ev.revokes && a != b ensures ev.revokes[a].eventId != ev.revokes[b].eventId {
      var e := RevokeFile(files, a);
      var f := RevokeFile(files, b);
      assert !Clash(files[e], files[f]);
    }
    forall a, b | a in ev.grants && b in ev.revokes ensures ev.grants[a].eventId != ev.revokes[b].eventId {
      var e := GrantFile(files, a);
      var f := RevokeFile(files, b);
      assert !Clash(files[e], files[f]);
    }
  }

  /** `_load_evidence_store`: the result does not depend on the order in which the directory is listed. */
  method LoadEvidence(files: Files, order: seq<EventId>) returns (r: Result<Evidence, ApprovalError>)
    requires Lists(order, files.Keys)
    ensures r == Load(files)
  {
    hide Distinct, GrantsOf, RevokesOf, EventIdsDistinct, NoRepeat, Index;
    IndexIsLoad(files, order);
    var index := IndexByApproval(Contents(files, order));
    if index.None? {
      return Failure(ValidationError);
    }
    var ev := index.value;
    var gs := Listing(ev.grants.Keys);
    var rs := Listing(ev.revokes.Keys);
    if EventIdsDistinct(ev) {
      DistinctInOrder(ev, gs, rs);
    } else if InOrderDistinct(ev, gs, rs) {
      OrderedDistinct(ev, gs, rs);
    }
    var ok, seen := CollectNew(GrantEvents(ev, gs), {});
    if !ok {
      return Failure(ValidationError);
    }
    ok, seen := CollectNew(RevokeEvents(ev, rs), seen);
    if !ok {
      return Failure(ValidationError);
    }
    return Success(ev);
  }

  // ---- The gate's loops ------------------------------------------------------------------------------------------

  /** The members of a set among the first items of a listing. */
  function Among<T(!new)>(s: set<T>, seen: seq<T>): set<T> { set x | x in s && x in seen }

  lemma ListsNext<T(!new)>(found: seq<T>, s: set<T>, order: seq<T>, i: nat)
    requires i < |order| && (forall j :: 0 <= j < i ==> order[j] != order[i]) && Lists(found, Among(s, order[..i]))
    ensures Lists(if order[i] in s then found + [order[i]] else found, Among(s, order[..i + 1]))
  {
    assert order[..i + 1] == order[..i] + [order[i]];
    var found' := if order[i] in s then found + [order[i]] else found;
    forall x ensures x in found' <==> x in Among(s, order[..i + 1]) {
      assert x in found' <==> x in found || (x == order[i] && order[i] in s);
    }
    assert order[i] !in found;
  }

  lemma AmongAll<T(!new)>(s: set<T>, order: seq<T>)
    requires forall x :: x in s ==> x in order
    ensures Among(s, order[..|order|]) == s
  {
    assert order[..|order|] == order;
  }

  /** The grants of the request's scope and subject, in listing order. */
  method ExactGrants(ev: Evidence, order: seq<ApprovalId>, request: CheckRequest) returns (exact: seq<ApprovalId>)
    requires Lists(order, ev.grants.Keys)
    ensures Lists(exact, ExactIds(ev, request))
  {
    exact := [];
    for i := 0 to |order|
      invariant Lists(exact, Among(ExactIds(ev, request), order[..i]))
    {
      ListsNext(exact, ExactIds(ev, request), order, i);
      assert order[i] in ev.grants;
      if Exact(ev.grants[order[i]], request) {
        exact := exact + [order[i]];
      }
    }
    AmongAll(ExactIds(ev, request), order);
  }

  /** The exact grants that are active, and those that are revoked; an exact grant that is neither has expired. */
  method Classify(ev: Evidence, exact: seq<ApprovalId>, request: CheckRequest, now: Instant)
    returns (active: seq<ApprovalId>, revoked: seq<ApprovalId>)
    requires Lists(exact, ExactIds(ev, request))
    ensures Lists(active, ActiveIds(ev, request, now)) && Lists(revoked, RevokedIds(ev, request, now))
  {
    active, revoked := [], [];
    for i := 0 to |exact|
      invariant Lists(active, Among(ActiveIds(ev, request, now), exact[..i]))
      invariant Lists(revoked, Among(RevokedIds(ev, request, now), exact[..i]))
    {
      ListsNext(active, ActiveIds(ev, request, now), exact, i);
      ListsNext(revoked, RevokedIds(ev, request, now), exact, i);
      assert exact[i] in ExactIds(ev, request);
      var g := ev.grants[exact[i]];
      var isExpired := g.expiresAt.Some? && now >= g.expiresAt.value;
      var isRevoked := g.approvalId in ev.revokes && now >= ev.revokes[g.approvalId].revokedAt;
      if isRevoked {
        revoked := revoked + [exact[i]];
      } else if !isExpired {
        active := active + [exact[i]];
      }
    }
    AmongAll(ActiveIds(ev, request, now), exact);
    AmongAll(RevokedIds(ev, request, now), exact);
  }

  /** The matching part of `check`: in whatever order the grants are listed, the verdict is the one on the set. */
  method Match(ev: Evidence, order: seq<ApprovalId>, request: CheckRequest, now: Instant)
    returns (r: Result<Verdict, ApprovalError>)
    requires Lists(order, ev.grants.Keys)
    ensures r == Judge(ev, request, now)
  {
    var exact := ExactGrants(ev, order, request);
    if exact != [] {
      var active, revoked := Classify(ev, exact, request, now);
      ListsCount(active, ActiveIds(ev, request, now));
      if |active| == 1 {
        assert active[0] in active;
        assert ActiveIds(ev, request, now) == {active[0]};
        return Success(Passed(ev.grants[active[0]]));
      }
      if |active| > 1 {
        return Failure(AmbiguousError);
      }
      assert exact[0] in ExactIds(ev, request);
      if revoked != [] {
        assert revoked[0] in RevokedIds(ev, request, now);
        return Success(Revoked);
      }
      return Success(Expired);
    }
    NoneActive(ev, request, now);
    for i := 0 to |order|
      invariant forall j :: 0 <= j < i ==> order[j] in ev.grants && !SubjectElsewhere(ev.grants[order[j]], request)
    {
      assert order[i] in ev.grants;
      if SubjectElsewhere(ev.grants[order[i]], request) {
        return Success(WrongScope);
      }
    }
    assert forall a :: a in ev.grants ==> a in order;
    for i := 0 to |order|
      invariant forall j :: 0 <= j < i ==> order[j] in ev.grants && !OtherSubject(ev.grants[order[j]], request)
    {
      assert order[i] in ev.grants;
      if OtherSubject(ev.grants[order[i]], request) {
        return Success(WrongSubject);
      }
    }
    return Success(NotFound);
  }

  /** `ApprovalGate.check`. */
  method CheckFiles(files: Files, git: Git, request: CheckRequest, now: Instant)
    returns (r: Result<Verdict, ApprovalError>)
    ensures r == Check(files, git, request, now)
  {
    hide Distinct, GrantsOf, RevokesOf, Judge;
    if git.head != request.expectedSnapshot {
      return Failure(SnapshotConflict);
    }
    var order := Listing(files.Keys);
    var loaded := LoadEvidence(files, order);
    if loaded.Failure? {
      return Failure(loaded.error);
    }
    var ev := loaded.value;
    if !AncestryHolds(ev, git) {
      return Failure(SnapshotConflict);
    }
    var grants := Listing(ev.grants.Keys);
    r := Match(ev, grants, request, now);
  }

  /** `ApprovalGate.require`. */
  method RequireGrant(files: Files, git: Git, request: CheckRequest, now: Instant)
    returns (r: Result<Grant, ApprovalError>)
    ensures r == Require(files, git, request, now)
  {
    hide Check;
    var checked := CheckFiles(files, git, request, now);
    match checked {
      case Failure(e) => r := Failure(e);
      case Success(Passed(g)) => r := Success(g);
      case Success(Expired) => r := Failure(ExpiredError);
      case Success(Revoked) => r := Failure(RevokedError);
      case Success(_) => r := Failure(NotFoundError);
    }
  }

  // ---- The store -------------------------------------------------------------------------------------------------

  class Store {
    var files: Files
    /** The ids of records that landed where the loader does not read them. */
    var elsewhere: set<EventId>

    constructor ()
      ensures files == map[] && elsewhere == {}
    {
      files, elsewhere := map[], {};
    }

    /** One new file, wherever its name leads. */
    method Put(e: EventId, r: Record)
      modifies this
      ensures files == Stored(old(files), e, r)
      ensures elsewhere == if IsFileName(e.text) then old(elsewhere) else old(elsewhere) + {e}
    {
      if IsFileName(e.text) {
        files := files[e := r];
      } else {
        elsewhere := elsewhere + {e};
      }
    }

    /** `write_grant`. */
    method WriteGrant(git: Git, args: GrantArgs, now: Instant) returns (r: Result<Grant, ApprovalError>)
      modifies this
      ensures var outcome := GrantOutcome(old(files), git, args, now);
        r == if outcome.Success? && args.eventId in old(elsewhere) then Failure(ValidationError) else outcome
      ensures files == if r.Success? then Apply(old(files), Call(GrantOp(args), git, now)) else old(files)
      ensures elsewhere == if r.Success? && !IsFileName(args.eventId.text) then old(elsewhere) + {args.eventId} else old(elsewhere)
    {
      hide Distinct, GrantsOf, RevokesOf, IsFileName;
      if !ScopeFits(args.scope, args.subject) || args.leaseEpoch < 1 {
        return Failure(InvalidArgument);
      }
      if git.head != args.expectedSnapshot {
        return Failure(SnapshotConflict);
      }
      var record := NewGrant(git, args, now);
      if record.expiresAt.Some? && record.expiresAt.value <= record.grantedAt {
        return Failure(ValidationError);
      }
      var order := Listing(files.Keys);
      var loaded := LoadEvidence(files, order);
      if loaded.Failure? {
        return Failure(loaded.error);
      }
      var ev := loaded.value;
      if args.approvalId in ev.grants || EventIdTaken(ev, args.eventId) || BlockedByExact(ev, args) {
        return Failure(ValidationError);
      }
      if args.eventId in files || args.eventId in elsewhere {
        return Failure(ValidationError);
      }
      Put(args.eventId, GrantRecord(record));
      return Success(record);
    }

    /** `write_revoke`. */
    method WriteRevoke(git: Git, args: RevokeArgs, now: Instant) returns (r: Result<Revoke, ApprovalError>)
      modifies this
      ensures var outcome := RevokeOutcome(old(files), git, args, now);
        r == if outcome.Success? && args.eventId in old(elsewhere) then Failure(ValidationError) else outcome
      ensures files == if r.Success? then Apply(old(files), Call(RevokeOp(args), git, now)) else old(files)
      ensures elsewhere == if r.Success? && !IsFileName(args.eventId.text) then old(elsewhere) + {args.eventId} else old(elsewhere)
    {
      hide Distinct, GrantsOf, RevokesOf, IsFileName;
      if args.leaseEpoch < 1 {
        return Failure(InvalidArgument);
      }
      if git.head != args.expectedSnapshot {
        return Failure(SnapshotConflict);
      }
      var order := Listing(files.Keys);
      var loaded := LoadEvidence(files, order);
      if loaded.Failure? {
        return Failure(loaded.error);
      }
      var ev := loaded.value;
      if args.approvalId !in ev.grants {
        return Failure(NotFoundError);
      }
      if args.approvalId in ev.revokes {
        return Failure(AmbiguousError);
      }
      if EventIdTaken(ev, args.eventId) || args.eventId in files || args.eventId in elsewhere {
        return Failure(ValidationError);
      }
      var record := NewRevoke(git, args, ev.grants[args.approvalId].subject.taskId, now);
      Put(args.eventId, RevokeRecord(record));
      return Success(record);
    }
  }
}
