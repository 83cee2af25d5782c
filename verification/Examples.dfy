/** Concrete systems in which the control plane departs from what it is said to do. */
module Examples {
  import opened Wrappers
  import opened Texts
  import opened Approvals
  import opened ApprovalRuns
  import opened Ledger
  import opened Events
  import opened EventReader
  import opened EventLines
  import opened EventGuards
  import opened EventReading
  import opened EventRecovery
  import opened EventFiles
  import opened EventDispatch
  import opened AcceptanceFiles
  import opened AcceptanceReading
  import opened AcceptanceRecords
  import opened Transition
  import opened History
  import opened ControlPlaneRuns
  import opened Deviations
  import opened Replay
  import opened GatedReplay
  import opened Integrations
  import Evidence = DispatchReceipts
  import Liveness
  import OwnerLoss

  // ---- The parts --------------------------------------------------------------------------------------------------

  function Sha(c: char): string { seq(40, _ => c) }

  function Head(): Commit { Commit(Sha('a')) }

  function Id(): TaskId { TaskId("TC-001") }

  function Repository(): Git { Git(Head(), {}) }

  function TheCard(): Card { Card(Text("docs/card.md"), Head()) }

  function Surroundings(): Env {
    Env(Repository(), 0, 1, Text("PM-1"), map[TheCard() := CardFacts(Text("feature"), Text("DEV"), Head())])
  }

  function DispatchGrant(s: Subject, reason: Reason): Grant {
    Grant(ApprovalId("APR-D"), EventId("EVT-D"), DispatchScope, s, 1, 0, None, reason, Head())
  }

  function AcceptGrant(s: Subject, reason: Reason): Grant {
    Grant(ApprovalId("APR-A"), EventId("EVT-A"), AcceptScope, s, 1, 0, None, reason, Head())
  }

  /** One grant to dispatch and one to accept, neither of which expires. */
  function Granted(s: Subject, reason: Reason): Files {
    map[EventId("EVT-D") := GrantRecord(DispatchGrant(s, reason)), EventId("EVT-A") := GrantRecord(AcceptGrant(s, reason))]
  }

  lemma GrantedIsSound(s: Subject, reason: Reason)
    ensures Sound(Granted(s, reason))
    ensures IsGrant(Granted(s, reason), EventId("EVT-D")) && IsGrant(Granted(s, reason), EventId("EVT-A"))
    ensures forall e :: e in Granted(s, reason) ==> IsGrant(Granted(s, reason), e)
  {
    var files := Granted(s, reason);
    assert "EVT-D"[4] != "EVT-A"[4] && "APR-D"[4] != "APR-A"[4];
    assert EventId("EVT-D") != EventId("EVT-A") && ApprovalId("APR-D") != ApprovalId("APR-A");
  }

  lemma GrantedPasses(s: Subject, reason: Reason, now: Instant)
    ensures Require(Granted(s, reason), Repository(), CheckRequest(DispatchScope, s, Head()), now) == Success(DispatchGrant(s, reason))
    ensures Require(Granted(s, reason), Repository(), CheckRequest(AcceptScope, s, Head()), now) == Success(AcceptGrant(s, reason))
  {
    hide GrantsOf, RevokesOf, Judge, Sha;
    var files := Granted(s, reason);
    GrantedIsSound(s, reason);
    assert files[EventId("EVT-A")] == GrantRecord(AcceptGrant(s, reason));
    assert files[EventId("EVT-D")] == GrantRecord(DispatchGrant(s, reason)) by { assert "EVT-D"[4] != "EVT-A"[4]; }
    GrantedAncestry(s, reason);
    hide Granted, Distinct, WellNamed, RevokesHaveGrants, OneGrantEach, AncestryHolds;
    JudgeExact(files, EventId("EVT-D"), CheckRequest(DispatchScope, s, Head()), now);
    JudgeExact(files, EventId("EVT-A"), CheckRequest(AcceptScope, s, Head()), now);
  }

  lemma GrantedAncestry(s: Subject, reason: Reason)
    requires Distinct(Granted(s, reason))
    ensures AncestryHolds(EvidenceOf(Granted(s, reason)), Repository()) && EvidenceOf(Granted(s, reason)).revokes == map[]
  {
    hide Sha, AncestryHolds;
    var files := Granted(s, reason);
    assert forall e :: e in files ==> files[e].GrantRecord? && files[e].grant.snapshot == Head();
    hide Granted;
    GrantsAtHead(files, Repository());
  }

  lemma GrantsAtHead(files: Files, git: Git)
    requires Distinct(files) && forall e :: e in files ==> files[e].GrantRecord? && files[e].grant.snapshot == git.head
    ensures AncestryHolds(EvidenceOf(files), git) && EvidenceOf(files).revokes == map[]
  {
  }

  // ---- Dispatches that cannot be repeated ---------------------------------------------------------------------------

  function Blank(state: State): Task {
    Task(1, state, None, None, None, None, None, None, None, None, None, None, None, None, None, map[])
  }

  function Args(dispatchId: string, message: MessageId, attempt: int): DispatchArgs {
    DispatchArgs(DispatchId(dispatchId), Text("DEV"), Text("m"), Text("docs/card.md"), Head(), Head(), Text("b"), Text("r.md"),
                 message, attempt)
  }

  /** A ready task, and an approval to dispatch it. */
  function ReadyWorld(dispatchId: string, reason: Reason): World {
    World(map[Id() := Blank(Ready)], map[], map[], map[], Granted(Subject(Id(), 1, 1, DispatchId(dispatchId), None), reason))
  }

  function DispatchRequest(dispatchId: string, message: MessageId, refs: seq<Text>): Request {
    Ledger.Request(Cas(Id(), 1, Ready, Head()), None, EventId("EVT-1"), TaskDispatched(Args(dispatchId, message, 1)), None, refs, [])
  }

  /** The dispatch commits. */
  lemma DispatchCommits(dispatchId: string, message: MessageId, refs: seq<Text>, reason: Reason)
    ensures var w, r, env := ReadyWorld(dispatchId, reason), DispatchRequest(dispatchId, message, refs), Surroundings();
      && Constructible(r) && Sound(w.approvals) && Prepare(w, r, env).Write? && Execute(w, r, env, 6).1.Success?
      && Prepare(w, r, env).grant == Some(DispatchGrant(Subject(Id(), 1, 1, DispatchId(dispatchId), None), reason))
  {
    hide Sha, Granted, Sound, Require, EventOf, PlanReplay, PutAll;
    var s := Subject(Id(), 1, 1, DispatchId(dispatchId), None);
    GrantedIsSound(s, reason);
    GrantedPasses(s, reason, 0);
  }

  lemma ShaIsSha()
    ensures IsShaText(Sha('a'))
  {
  }

  /** Its texts are as the constructors demand. */
  lemma DispatchIsSpelled(dispatchId: string, message: MessageId, refs: seq<Text>, reason: Reason)
    requires IsSafeText(dispatchId) && forall ref :: ref in refs ==> IsReferenceText(ref.text)
    ensures Spelled(Blank(Ready), DispatchRequest(dispatchId, message, refs),
                    DispatchGrant(Subject(Id(), 1, 1, DispatchId(dispatchId), None), reason))
  {
    hide Sha, IsSafeText, IsReferenceText;
    IdsAreSpelled();
  }

  lemma IdsAreSpelled()
    ensures IsTaskIdText("TC-001") && IsEventIdText("EVT-1") && IsEventIdText("EVT-D") && IsApprovalText("APR-D")
  {
  }

  /** A dispatch with a web address as its second reference commits, and is refused when repeated at once. */
  lemma WebAddressExample(message: MessageId, reason: Reason)
    ensures var w, r, env := ReadyWorld("D-1", reason), DispatchRequest("D-1", message, [Text("docs/a.md"), Text("https://x/y")]),
                             Surroundings();
      Constructible(r) && Execute(w, r, env, 6).1.Success? && Execute(Execute(w, r, env, 6).0, r, env, 6).1.Failure?
  {
    hide Prepare, Execute, Sound, Constructible, Spelled, IsReferenceText, IsSafeText, ReadyWorld, DispatchRequest, Surroundings;
    var refs := [Text("docs/a.md"), Text("https://x/y")];
    ReferencesAreSpelled();
    var w, r, env := ReadyWorld("D-1", reason), DispatchRequest("D-1", message, refs), Surroundings();
    DispatchCommits("D-1", message, refs, reason);
    DispatchIsSpelled("D-1", message, refs, reason);
    RequestIs("D-1", message, refs, reason);
    WebAddressIsNotRepeatable(w, r, env, 6, env, 6);
  }

  lemma ReferencesAreSpelled()
    ensures IsReferenceText("docs/a.md") && IsReferenceText("https://x/y") && IsSafeText("D-1")
  {
  }

  lemma RequestIs(dispatchId: string, message: MessageId, refs: seq<Text>, reason: Reason)
    ensures var w, r := ReadyWorld(dispatchId, reason), DispatchRequest(dispatchId, message, refs);
      && r.payload.TaskDispatched? && r.payload.args.dispatchId.text == dispatchId && r.evidenceRefs == refs
      && r.cas.taskId in w.ledger && w.ledger[r.cas.taskId] == Blank(Ready)
    ensures SameMoment(Surroundings(), Surroundings())
  {
    hide Sha, Granted;
  }

  /** So does a dispatch with the id 123. */
  lemma DigitsExample(message: MessageId, reason: Reason)
    ensures var w, r, env := ReadyWorld("123", reason), DispatchRequest("123", message, []), Surroundings();
      Constructible(r) && Execute(w, r, env, 6).1.Success? && Execute(Execute(w, r, env, 6).0, r, env, 6).1.Failure?
  {
    hide Prepare, Execute, Sound, Constructible, Spelled, IsSafeText, ReadyWorld, DispatchRequest, Surroundings, IsDigits;
    var w, r, env := ReadyWorld("123", reason), DispatchRequest("123", message, []), Surroundings();
    DigitsAreNotKept();
    DispatchCommits("123", message, [], reason);
    DispatchIsSpelled("123", message, [], reason);
    RequestIs("123", message, [], reason);
    DigitsAreNotRepeatable(w, r, env, 6, env, 6);
  }

  // ---- Acceptances of what was not submitted ------------------------------------------------------------------------

  function Dispatched(dispatchId: string, attempt: int): Dispatch {
    Dispatch(DispatchId(dispatchId), attempt, Text("DEV"), Head(), Text("b"), 0, Text("m"))
  }

  /** A task in progress on its first attempt. */
  function Working(): Task {
    Blank(InProgress).(attempt := Some(1), dispatch := Some(Dispatched("D-1", 1)), card := Some(TheCard()))
  }

  /** It is in progress, and a dispatch of this attempt is approved both to start and to be accepted. */
  function WorkingSystem(dispatchId: string, attempt: int, reason: Reason): System {
    System(World(map[Id() := Working()], map[], map[], map[],
                 Granted(Subject(Id(), 1, attempt, DispatchId(dispatchId), None), reason)), [])
  }

  function Path(attempt: int): AcceptancePath { AcceptancePath(Id(), 1, attempt, 1) }

  function Review(): ReviewArgs { ReviewArgs([], [Text("c")], Text("r")) }

  function Blockage(): Blocker { Blocker(Text("x"), Text("k"), Text("o"), Text("u"), InProgress, Some(true)) }

  lemma RecordPasses(t: Task, dispatchId: string, attempt: int, commit: Commit)
    requires t.dispatch.Some? && t.dispatch.value.id.text == dispatchId && t.attempt == Some(attempt) && t.revision == 1
    requires t.card == Some(TheCard()) && IsShaText(commit.text) && IsShort(attempt)
    requires (t.implementation.Some? ==> IsShaText(t.implementation.value.text)) && (t.report.Some? ==> IsShaText(t.report.value.text))
    requires IsSafeText(dispatchId) && IsUnbroken(dispatchId) && EntryConverts(dispatchId)
    ensures TheCard() in Surroundings().cards
    ensures Proofread(RecordOn(Id(), t, Surroundings(), Path(attempt), commit, Review()), Id()).Success?
  {
    hide Sha, IsShaText, IsUnbroken, IsSafeText, EntryConverts, IsShort, Strip, OnLines, Headed, Proofread, InOrder, Unclaimed;
    var a := RecordOn(Id(), t, Surroundings(), Path(attempt), commit, Review());
    ShaIsSha();
    PartsUnbroken();
    PartsConvert();
    IdsAreSpelled();
    HeadedIf(a);
    NoItems();
    OrdinaryRecord(a);
  }

  lemma PartsUnbroken()
    ensures IsUnbroken("feature") && IsUnbroken("DEV") && IsUnbroken("PM-1") && IsUnbroken("D-1") && IsUnbroken("D-2")
  {
  }

  lemma PartsConvert()
    ensures EntryConverts(Strip("feature")) && EntryConverts(Strip("DEV")) && EntryConverts(Strip("PM-1"))
    ensures EntryConverts("D-1") && EntryConverts("D-2") && IsSafeText("D-1") && IsSafeText("D-2")
    ensures IsShort(1) && IsShort(2)
  {
    hide Strip, EntryConverts;
    LettersConvert("feature");
    LettersConvert("DEV");
    LettersConvert("PM-1");
    LettersConvert("D-1");
    LettersConvert("D-2");
  }

  lemma NoItems()
    ensures OnLines([])
  {
  }

  lemma WorkingIsAcceptable(commit: Commit, reason: Reason)
    requires IsShaText(commit.text)
    ensures var s := WorkingSystem("D-1", 1, reason);
      Sound(s.world.approvals) && Acceptable(s.world, Id(), Working(), Surroundings(), Path(1), commit, Review())
  {
    hide Sha, Granted, Require, Proofread, IsShaText, IsUnbroken, EntryConverts, IsShort;
    PartsUnbroken();
    PartsConvert();
    RecordPasses(Working(), "D-1", 1, commit);
    GrantedIsSound(Subject(Id(), 1, 1, DispatchId("D-1"), None), reason);
    GrantedPasses(Subject(Id(), 1, 1, DispatchId("D-1"), None), reason, 0);
  }

  lemma NamesDiffer()
    ensures EventId("EVT-1") != EventId("EVT-2") && EventId("EVT-1") != EventId("EVT-3") && EventId("EVT-2") != EventId("EVT-3")
  {
    assert "EVT-1"[4] != "EVT-2"[4] && "EVT-1"[4] != "EVT-3"[4] && "EVT-2"[4] != "EVT-3"[4];
  }

  /** Any commit is accepted for work that has submitted nothing. */
  lemma UnsubmittedExample(commit: Commit, reason: Reason)
    requires IsShaText(commit.text)
    ensures var s, env := WorkingSystem("D-1", 1, reason), Surroundings();
            var s1 := Taken(s, Id(), env, EventId("EVT-1"), TaskBlocked(Blockage()));
            var s2 := Taken(s1, Id(), env, EventId("EVT-2"), BlockerResolved(ReviewReady));
            var s3 := Taken(s2, Id(), env, EventId("EVT-3"), DeliveryAcceptance(commit, Some(Path(1)), Review()));
      AcceptsUnsubmitted(s, s1, s2, s3, Id(), commit)
  {
    hide Sound, Taken, Acceptable, AcceptsUnsubmitted, Granted, Surroundings, Path, Review, IsShaText;
    NamesDiffer();
    WorkingIsAcceptable(commit, reason);
    AcceptedUnsubmitted(WorkingSystem("D-1", 1, reason), Id(), Surroundings(), EventId("EVT-1"), EventId("EVT-2"), EventId("EVT-3"),
                        Blockage(), commit, Path(1), Review());
  }

  // ---- A delivery that outlives its attempt -------------------------------------------------------------------------

  function Names(): Round { Round(EventId("EVT-4"), EventId("EVT-5"), EventId("EVT-6"), EventId("EVT-7")) }

  function LaterNames(): set<EventId> { {EventId("EVT-4"), EventId("EVT-5"), EventId("EVT-6"), EventId("EVT-7")} }

  lemma MoreNamesDiffer()
    ensures Names().Fresh(World(map[], map[], map[], map[], map[]))
    ensures EventId("EVT-1") !in LaterNames() && EventId("EVT-2") !in LaterNames() && EventId("EVT-3") !in LaterNames()
  {
    Fifth("EVT-1", "EVT-4", "EVT-5", "EVT-6", "EVT-7");
    Fifth("EVT-2", "EVT-4", "EVT-5", "EVT-6", "EVT-7");
    Fifth("EVT-3", "EVT-4", "EVT-5", "EVT-6", "EVT-7");
    assert "EVT-4"[4] != "EVT-5"[4] && "EVT-4"[4] != "EVT-6"[4] && "EVT-4"[4] != "EVT-7"[4];
    assert "EVT-5"[4] != "EVT-6"[4] && "EVT-5"[4] != "EVT-7"[4] && "EVT-6"[4] != "EVT-7"[4];
  }

  lemma Fifth(s: string, a: string, b: string, c: string, d: string)
    requires |s| == |a| == |b| == |c| == |d| == 5 && s[4] != a[4] && s[4] != b[4] && s[4] != c[4] && s[4] != d[4]
    ensures EventId(s) !in {EventId(a), EventId(b), EventId(c), EventId(d)}
  {
  }

  lemma WorkingIsRedispatchable(message: MessageId, reason: Reason)
    ensures var s := WorkingSystem("D-2", 2, reason);
      Sound(s.world.approvals) && Redispatchable(s.world, Id(), Working(), Surroundings(), Args("D-2", message, 2))
  {
    hide Sha, Granted, Require;
    GrantedIsSound(Subject(Id(), 1, 2, DispatchId("D-2"), None), reason);
    GrantedPasses(Subject(Id(), 1, 2, DispatchId("D-2"), None), reason, 0);
  }

  lemma RoundTaskIs(commit: Commit, message: MessageId)
    ensures var u := RoundTask(Working(), 0, commit, commit, Args("D-2", message, 2));
      && u.dispatch.Some? && u.dispatch.value.id.text == "D-2" && u.attempt == Some(2) && u.revision == 1
      && u.card == Some(TheCard()) && u.implementation == Some(commit) && u.report == Some(commit) && u.state.Dispatched?
  {
    hide Sha;
  }

  lemma RoundIsAcceptable(commit: Commit, message: MessageId, reason: Reason)
    requires IsShaText(commit.text)
    ensures var s, args := WorkingSystem("D-2", 2, reason), Args("D-2", message, 2);
            var s4 := AfterRound(s, Id(), Surroundings(), Names(), commit, commit, args);
      && Sound(s4.world.approvals) && Id() in s4.world.ledger && s4.world.ledger[Id()].state.Dispatched?
      && s4.world.events.Keys == LaterNames()
      && Acceptable(s4.world, Id(), s4.world.ledger[Id()], Surroundings(), Path(2), commit, Review())
  {
    hide AfterRound, Sound, Granted, Require, Redispatchable, Proofread, IsShaText, RoundTask, IsUnbroken, EntryConverts, IsShort, IsSafeText, Sha;
    var s, args := WorkingSystem("D-2", 2, reason), Args("D-2", message, 2);
    WorkingIsRedispatchable(message, reason);
    MoreNamesDiffer();
    assert Names().Fresh(s.world);
    DeliverySurvives(s, Id(), Surroundings(), Names(), commit, commit, args);
    RoundTaskIs(commit, message);
    PartsUnbroken();
    PartsConvert();
    RecordPasses(RoundTask(Working(), 0, commit, commit, args), "D-2", 2, commit);
    GrantedPasses(Subject(Id(), 1, 2, DispatchId("D-2"), None), reason, 0);
  }

  /** The commit submitted for the first attempt is accepted for the second. */
  lemma StaleExample(commit: Commit, message: MessageId, reason: Reason)
    requires IsShaText(commit.text)
    ensures var s, env := WorkingSystem("D-2", 2, reason), Surroundings();
            var s4 := AfterRound(s, Id(), env, Names(), commit, commit, Args("D-2", message, 2));
            var s5 := Taken(s4, Id(), env, EventId("EVT-1"), TaskBlocked(Blockage()));
            var s6 := Taken(s5, Id(), env, EventId("EVT-2"), BlockerResolved(ReviewReady));
            var s7 := Taken(s6, Id(), env, EventId("EVT-3"), DeliveryAcceptance(commit, Some(Path(2)), Review()));
      && AcceptsUnsubmitted(s4, s5, s6, s7, Id(), commit) && Id() in s4.world.ledger
      && s4.world.ledger[Id()].attempt == Some(2)
  {
    hide AfterRound, Taken, Sound, Acceptable, Redispatchable, AcceptsUnsubmitted, Granted, Surroundings, Path, Review, LaterNames, IsShaText;
    var s, args := WorkingSystem("D-2", 2, reason), Args("D-2", message, 2);
    WorkingIsRedispatchable(message, reason);
    RoundIsAcceptable(commit, message, reason);
    NamesDiffer();
    MoreNamesDiffer();
    assert Names().Fresh(s.world);
    StaleAccepted(s, Id(), Surroundings(), Names(), commit, commit, args, EventId("EVT-1"), EventId("EVT-2"), EventId("EVT-3"),
                  Blockage(), Path(2), Review());
  }

  /** And the loss of the second attempt's owner cannot be recovered from. */
  lemma RedispatchExample(commit: Commit, message: MessageId, reason: Reason, c: OwnerLoss.Check, scene: OwnerLoss.Scene)
    requires c.taskId == Id() && OwnerLoss.CheckOk(c)
    ensures var s := WorkingSystem("D-2", 2, reason);
            var w := AfterRound(s, Id(), Surroundings(), Names(), commit, commit, Args("D-2", message, 2)).world;
      OwnerLoss.RefusesRecovery(w, LossRequest(c), c, scene)
  {
    hide AfterRound, Sound, Redispatchable, Granted, Surroundings, OwnerLoss.RefusesRecovery;
    var s, args := WorkingSystem("D-2", 2, reason), Args("D-2", message, 2);
    WorkingIsRedispatchable(message, reason);
    MoreNamesDiffer();
    assert Names().Fresh(s.world);
    OwnerLoss.RedispatchIsNotRecovered(s, Id(), Surroundings(), Names(), commit, commit, args, LossRequest(c), c, scene);
  }

  // ---- Recoveries ---------------------------------------------------------------------------------------------------

  /** The request that goes with a check. */
  function LossRequest(c: OwnerLoss.Check): Request {
    Ledger.Request(Cas(c.taskId, c.revision, c.state, Head()), Some(DispatchCas(c.dispatchId, c.attempt)), c.eventId,
                   DispatchFailed(c.failure), None, c.evidenceRefs, [])
  }

  function DispatchEvent(dispatchId: string, message: MessageId, source: Option<Text>): Event {
    Event(EventId("EVT-1"), Dispatching, Id(), 1, Some(1), Some(DispatchId(dispatchId)), Ready, State.Dispatched, 1, 0, source,
          [], [], Digest(Outbox(message, EventId("EVT-1"), DedupeKey(Id(), 1, 1, DispatchId(dispatchId)), Text("DEV"), 0, Text("m"),
                                Text("docs/card.md"), Head(), Head(), Text("b"), Text("r.md"))))
  }

  /** A dispatched task, and the event of its dispatch. */
  function DispatchedWorld(dispatchId: string, message: MessageId, source: Option<Text>): World {
    World(map[Id() := Blank(State.Dispatched).(attempt := Some(1), dispatch := Some(Dispatched(dispatchId, 1)))],
          map[EventId("EVT-1") := DispatchEvent(dispatchId, message, source)], map[], map[], map[])
  }

  function Loss(dispatchId: string, generation: Evidence.GenerationId): OwnerLoss.Check {
    OwnerLoss.Check(Id(), 1, 1, DispatchId(dispatchId), generation, State.Dispatched, EventId("EVT-2"), Text("worker_failed"),
                    [Text("docs/a.md")])
  }

  /** A receipt of that dispatch whose processes are gone. */
  function LossScene(dispatchId: string, generation: Evidence.GenerationId, holder: Evidence.HolderId, boot: Evidence.BootId)
    : OwnerLoss.Scene
  {
    var d := DispatchId(dispatchId);
    var receipt := Evidence.Receipt(Evidence.Identity(Id(), 1, 1, d), 1, holder, generation, true, boot, Evidence.SupervisorReady,
                                    Evidence.Process(1, 0), Some(Evidence.Process(2, 0)), None, None, 0);
    OwnerLoss.Scene(Surroundings(), Evidence.Store(map[d := receipt], map[]),
                    (t: nat) => Liveness.Snapshot(true, map[], true, boot, None), 0, false)
  }

  lemma LossIsLost(dispatchId: string, message: MessageId, source: Option<Text>, generation: Evidence.GenerationId,
                   holder: Evidence.HolderId, boot: Evidence.BootId)
    ensures var w, c := DispatchedWorld(dispatchId, message, source), Loss(dispatchId, generation);
      && Id() in w.ledger && OwnerLoss.IsLost(w.ledger[Id()], LossScene(dispatchId, generation, holder, boot), c)
      && OwnerLoss.CheckOk(c) && Constructible(LossRequest(c)) && OwnerLoss.Bound(LossRequest(c), c)
  {
    hide Sha;
  }

  lemma EventIsUnspoiled(dispatchId: string, message: MessageId, source: Option<Text>)
    requires IsSafeText(dispatchId) && (source.Some? ==> IsSafeText(source.value.text))
    ensures Unspoiled(DispatchEvent(dispatchId, message, source))
  {
    hide IsSafeText, Sha, ReturnsOnlyInReferences, IsTaskIdText, IsEventIdText;
    var e := DispatchEvent(dispatchId, message, source);
    IdsAreSpelled();
    assert SpelledEvent(e);
    IdHasNoReturn();
    hide SpelledEvent;
    ReturnsNowhere(e);
    OneLineIsUnspoiled(e);
  }

  lemma IdHasNoReturn()
    ensures NoReturn("EVT-1") && NoReturn("EVT-3")
  {
  }

  lemma IdsReadBack()
    ensures !ReadsAs("EVT-1", "EVT-2") && !ReadsAs("EVT-3", "EVT-2")
  {
    hide Coerce, Emit;
    IdShapes();
    CoerceLetters("EVT-1");
    CoerceLetters("EVT-3");
    assert "EVT-1"[4] != "EVT-2"[4] && "EVT-3"[4] != "EVT-2"[4];
  }

  lemma IdShapes()
    ensures Stripped("EVT-1") && '\\' !in "EVT-1" && '"' !in "EVT-1" && Stripped("EVT-3") && '\\' !in "EVT-3" && '"' !in "EVT-3"
    ensures IsEventIdText("EVT-3")
  {
  }

  /** All but the texts is as a recovery wants it. */
  lemma LossFits(dispatchId: string, message: MessageId, generation: Evidence.GenerationId, holder: Evidence.HolderId,
                 boot: Evidence.BootId)
    requires IsSafeText(dispatchId)
    ensures var w, c := DispatchedWorld(dispatchId, message, None), Loss(dispatchId, generation);
      Id() in w.ledger && OwnerLoss.OtherwiseFits(w, w.ledger[Id()], LossScene(dispatchId, generation, holder, boot), c)
  {
    hide Sha, Unspoiled, ReadsAs, OwnerLoss.IsLost, IsSafeText, LossScene;
    var w, c := DispatchedWorld(dispatchId, message, None), Loss(dispatchId, generation);
    EventIsUnspoiled(dispatchId, message, None);
    LossIsLost(dispatchId, message, None, generation, holder, boot);
    IdsReadBack();
    NamesDiffer();
    assert OwnerLoss.Names(w.events[EventId("EVT-1")], c);
  }

  /** A dispatch with an ordinary id is recovered. */
  lemma RecoveredExample(message: MessageId, generation: Evidence.GenerationId, holder: Evidence.HolderId, boot: Evidence.BootId)
    ensures var w, c := DispatchedWorld("D-1", message, None), Loss("D-1", generation);
      OwnerLoss.Recovers(w, LossRequest(c), c, LossScene("D-1", generation, holder, boot))
  {
    hide Sha, OwnerLoss.Recover, OwnerLoss.OtherwiseFits, OwnerLoss.IsLost, OwnerLoss.Bound, Constructible, IsSafeText, Kept, LossScene;
    var w, c := DispatchedWorld("D-1", message, None), Loss("D-1", generation);
    PartsConvert();
    LossFits("D-1", message, generation, holder, boot);
    LossIsLost("D-1", message, None, generation, holder, boot);
    OrdinaryIdKept();
    LossConverts("D-1", message);
    OwnerLoss.RecoveryExactly(w, LossRequest(c), c, LossScene("D-1", generation, holder, boot));
  }

  lemma OrdinaryIdKept()
    ensures Kept("D-1") && !IsDigits("D-1")
  {
    ReceiptIdKept("D-1");
    assert "D-1"[0] == 'D';
    hide IsDigits, NeedsQuoting;
  }

  lemma LossConverts(dispatchId: string, message: MessageId)
    requires !IsDigits(dispatchId)
    ensures OwnerLoss.AllConvert(DispatchedWorld(dispatchId, message, None))
  {
    hide IsDigits, IsShort, Sha;
    PartsConvert();
  }

  /** The same dispatch under the id 123 is not. */
  lemma NumberedExample(message: MessageId, generation: Evidence.GenerationId, holder: Evidence.HolderId, boot: Evidence.BootId)
    ensures var w, c := DispatchedWorld("123", message, None), Loss("123", generation);
      !OwnerLoss.Recovers(w, LossRequest(c), c, LossScene("123", generation, holder, boot))
  {
    hide Sha, OwnerLoss.Recover, OwnerLoss.OtherwiseFits, OwnerLoss.IsLost, OwnerLoss.Bound, Constructible, IsSafeText, LossScene;
    var w, c := DispatchedWorld("123", message, None), Loss("123", generation);
    DigitsAreNotKept();
    hide Kept;
    LossFits("123", message, generation, holder, boot);
    LossIsLost("123", message, None, generation, holder, boot);
    OwnerLoss.DigitsAreNotRecovered(w, LossRequest(c), c, LossScene("123", generation, holder, boot));
  }

  /** Nor is the ordinary one if its event names a superscript as its source. */
  lemma SuperscriptExample(message: MessageId, generation: Evidence.GenerationId, holder: Evidence.HolderId, boot: Evidence.BootId)
    ensures var w, c := DispatchedWorld("D-1", message, Some(Text("²"))), Loss("D-1", generation);
      !OwnerLoss.Recovers(w, LossRequest(c), c, LossScene("D-1", generation, holder, boot))
  {
    hide Sha, OwnerLoss.Recover, OwnerLoss.IsLost, OwnerLoss.Bound, Constructible, IsSafeText, LossScene, Unspoiled;
    var w, c := DispatchedWorld("D-1", message, Some(Text("²"))), Loss("D-1", generation);
    PartsConvert();
    SuperscriptIsSafe();
    EventIsUnspoiled("D-1", message, Some(Text("²")));
    LossIsLost("D-1", message, Some(Text("²")), generation, holder, boot);
    OwnerLoss.SuperscriptStopsRecovery(w, LossRequest(c), c, LossScene("D-1", generation, holder, boot), EventId("EVT-1"));
  }

  lemma SuperscriptIsSafe()
    ensures IsSafeText("²")
  {
  }

  /** An event of the dispatch that carries nothing but its references. */
  function PlainEvent(id: EventId, kind: Kind, fromState: State, toState: State, refs: seq<Text>): Event {
    Event(id, kind, Id(), 1, Some(1), Some(DispatchId("D-1")), fromState, toState, 1, 0, None, refs, [], NoExtra)
  }

  function Acknowledged(): Event { PlainEvent(EventId("EVT-3"), Acknowledgement, State.Dispatched, InProgress, []) }

  /** A submission whose reference claims another dispatch. */
  function Submitted(): Event {
    PlainEvent(EventId("EVT-4"), Submission, InProgress, ReviewReady, [Text(CLAIMING_REFERENCE)])
  }

  /** The dispatch was acknowledged. */
  function ProgressWorld(message: MessageId): World {
    World(map[Id() := Working()],
          map[EventId("EVT-1") := DispatchEvent("D-1", message, None), EventId("EVT-3") := Acknowledged()], map[], map[], map[])
  }

  function ProgressLoss(generation: Evidence.GenerationId): OwnerLoss.Check { Loss("D-1", generation).(state := InProgress) }

  lemma SubmittedIsSpelled()
    ensures SpelledEvent(Submitted()) && ReturnsOnlyInReferences(Submitted()) && Converts(Submitted())
  {
    hide IsSafeText, ReturnsOnlyInReferences, IsTaskIdText, IsEventIdText, IsReferenceText, IsDigits, IsCountable, IsShort, CLAIMING_REFERENCE;
    IdsAreSpelled();
    PartsConvert();
    OrdinaryIdKept();
    ClaimIsReference();
    MoreIds();
    ReturnsNowhere(Submitted());
  }

  lemma AcknowledgedIsSpelled()
    ensures Unspoiled(Acknowledged()) && Converts(Acknowledged())
  {
    hide IsSafeText, ReturnsOnlyInReferences, IsTaskIdText, IsEventIdText, IsReferenceText, IsDigits, IsCountable, IsShort, Unspoiled;
    IdsAreSpelled();
    IdShapes();
    PartsConvert();
    OrdinaryIdKept();
    IdHasNoReturn();
    ReturnsNowhere(Acknowledged());
    OneLineIsUnspoiled(Acknowledged());
  }

  lemma ClaimIsReference()
    ensures IsReferenceText(CLAIMING_REFERENCE)
  {
    assert CLAIMING_REFERENCE[0] == 'a';
    assert CLAIMING_REFERENCE[|CLAIMING_REFERENCE| - 1] == 'z';
  }

  lemma MoreIds()
    ensures IsEventIdText("EVT-4") && NoReturn("EVT-4")
    ensures EventId("EVT-4") != EventId("EVT-1") && EventId("EVT-4") != EventId("EVT-2") && EventId("EVT-4") != EventId("EVT-3")
  {
    assert "EVT-4"[4] != "EVT-1"[4] && "EVT-4"[4] != "EVT-2"[4] && "EVT-4"[4] != "EVT-3"[4];
  }

  lemma FourthReadsBack()
    ensures !ReadsAs("EVT-4", "EVT-2")
  {
    hide Coerce, Emit;
    assert Stripped("EVT-4") && '\\' !in "EVT-4" && '"' !in "EVT-4";
    CoerceLetters("EVT-4");
    assert "EVT-4"[4] != "EVT-2"[4];
  }

  lemma ProgressIsLost(message: MessageId, generation: Evidence.GenerationId, holder: Evidence.HolderId, boot: Evidence.BootId)
    ensures var w, c := ProgressWorld(message), ProgressLoss(generation);
      && OwnerLoss.IsLost(Working(), LossScene("D-1", generation, holder, boot), c)
      && OwnerLoss.CheckOk(c) && Constructible(LossRequest(c)) && OwnerLoss.Bound(LossRequest(c), c)
  {
    hide Sha;
  }

  lemma TwoEvents(w: World, c: OwnerLoss.Check, d: Event, a: Event)
    requires w.events == map[d.id := d, a.id := a] && d.id != a.id && d.kind.Dispatching? && a.kind.Acknowledgement?
    requires OwnerLoss.Names(d, c) && OwnerLoss.Names(a, c) && c.state.InProgress? && c.eventId != d.id && c.eventId != a.id
    requires Unspoiled(d) && Unspoiled(a) && Converts(d) && Converts(a)
    requires !ReadsAs(d.id.text, c.eventId.text) && !ReadsAs(a.id.text, c.eventId.text)
    ensures OwnerLoss.AllUnspoiled(w) && OwnerLoss.AllConvert(w) && OwnerLoss.Apart(w, c) && OwnerLoss.RecordsFit(w, c)
  {
    hide Unspoiled, ReadsAs, Converts;
    assert w.events[d.id] == d && w.events[a.id] == a;
  }

  lemma DispatchConverts(message: MessageId)
    ensures Converts(DispatchEvent("D-1", message, None))
  {
    hide Sha, Converts, DispatchEvent;
    OrdinaryIdKept();
    LossConverts("D-1", message);
    assert EventId("EVT-1") in DispatchedWorld("D-1", message, None).events;
  }

  lemma ProgressFits(message: MessageId, generation: Evidence.GenerationId)
    ensures var w, c := ProgressWorld(message), ProgressLoss(generation);
      OwnerLoss.AllUnspoiled(w) && OwnerLoss.AllConvert(w) && OwnerLoss.Apart(w, c) && OwnerLoss.RecordsFit(w, c)
  {
    hide Sha, Unspoiled, ReadsAs, IsSafeText, Converts, OwnerLoss.AllUnspoiled, OwnerLoss.AllConvert, OwnerLoss.Apart, OwnerLoss.RecordsFit;
    var w, c := ProgressWorld(message), ProgressLoss(generation);
    PartsConvert();
    EventIsUnspoiled("D-1", message, None);
    DispatchConverts(message);
    AcknowledgedIsSpelled();
    IdsReadBack();
    NamesDiffer();
    TwoEvents(w, c, DispatchEvent("D-1", message, None), Acknowledged());
  }

  /** A dispatch is recovered although the event of its submission is on file. */
  lemma HiddenExample(message: MessageId, generation: Evidence.GenerationId, holder: Evidence.HolderId, boot: Evidence.BootId)
    ensures var w, c := ProgressWorld(message), ProgressLoss(generation);
            var w' := w.(events := w.events[EventId("EVT-4") := Submitted()]);
      && OwnerLoss.Recorded(w', c, Submission)
      && OwnerLoss.Recovers(w', LossRequest(c), c, LossScene("D-1", generation, holder, boot))
  {
    hide Sha, OwnerLoss.Recover, OwnerLoss.IsLost, OwnerLoss.Bound, Constructible, IsSafeText, LossScene, SpelledEvent, ReturnsOnlyInReferences,
      Converts, ReadsAs, CLAIMING_REFERENCE, Kept, OwnerLoss.AllUnspoiled, OwnerLoss.AllConvert, OwnerLoss.Apart, OwnerLoss.RecordsFit,
      OwnerLoss.EventsFit, OwnerLoss.Unconvertible, Unspoiled, OwnerLoss.Recorded;
    var w, c, s := ProgressWorld(message), ProgressLoss(generation), LossScene("D-1", generation, holder, boot);
    ProgressIsLost(message, generation, holder, boot);
    ProgressFits(message, generation);
    OrdinaryIdKept();
    OwnerLoss.EventsExactly(w, c);
    OwnerLoss.ReadableExactly(w);
    assert OwnerLoss.SecondCheck(w, Working(), s, c);
    SubmittedIsSpelled();
    FourthReadsBack();
    MoreIds();
    NamesDiffer();
    NotTheClaimed();
    OwnerLoss.HiddenSubmission(w, c, Submitted(), Working(), s);
    var w' := w.(events := w.events[EventId("EVT-4") := Submitted()]);
    hide OwnerLoss.SecondCheck;
    OwnerLoss.RecoveryDecided(w', LossRequest(c), c, s);
  }

  lemma NotTheClaimed()
    ensures "D-1" != "zzz\""
  {
    assert "D-1"[0] == 'D';
  }

  // ---- An integration of another commit ------------------------------------------------------------------------------

  function Other(): Commit { Commit(Sha('b')) }

  /** The record of an acceptance of the head, with a reference that claims the other commit. */
  function ForgedRecord(): Acceptance {
    Acceptance(Id(), 1, DispatchId("D-1"), 1, 1, Text("feature"), Text("DEV"), Text("PM-1"), 1, Head(), None, None, Head(),
               [ForgingReference("docs/a.md", Sha('b'))], Review(), 0)
  }

  function IntegrateGrant(reason: Reason): Grant {
    Grant(ApprovalId("APR-I"), EventId("EVT-I"), IntegrateScope, PlainSubject(ForgedRecord()).(acceptedCommit := Some(Other())), 1, 0,
          None, reason, Head())
  }

  /** The task was accepted with this record, and the integration of the other commit is approved. */
  function AcceptedWorld(reason: Reason): World {
    World(map[Id() := Blank(Accepted).(attempt := Some(1), acceptedCommit := Some(Head()), acceptancePath := Some(Path(1)))], map[],
          map[], map[Path(1) := ForgedRecord()], map[EventId("EVT-I") := GrantRecord(IntegrateGrant(reason))])
  }

  lemma ForgedIsForged()
    ensures Forged(ForgedRecord(), "docs/a.md", Other())
  {
    hide Sha, IsUnbroken, IsSafeText, EntryConverts, IsShort, Strip, Headed, IsTaskIdText, IsDigits, BulletConverts, IsReferenceText;
    ShaIsSha();
    OtherIsSha();
    PartsUnbroken();
    PartsConvert();
    IdsAreSpelled();
    FrontIsReference();
    HeadedIf(ForgedRecord());
    assert EntryKept("D-1") by { OrdinaryIdKept(); assert "D-1"[0] == 'D' && "null"[0] == 'n' && "true"[0] == 't' && "false"[0] == 'f'; }
  }

  lemma OtherIsSha()
    ensures IsShaText(Sha('b')) && !IsDigits(Sha('b')) && Other() != Head()
  {
    NoDigits(Sha('b'));
    assert Sha('b')[0] != Sha('a')[0];
    hide IsDigits;
  }

  lemma FrontIsReference()
    ensures IsReferenceText("docs/a.md") && IsUnbroken("docs/a.md") && BulletConverts("docs/a.md")
    ensures IsReferenceText(ForgingReference("docs/a.md", Sha('b')).text)
  {
    assert ':' !in "docs/a.md";
    var s := ForgingReference("docs/a.md", Sha('b')).text;
    assert s[0] == "docs/a.md"[0] && s[|s| - 1] == Sha('b')[39];
  }

  lemma IntegrationPasses(reason: Reason, now: Instant)
    ensures Require(AcceptedWorld(reason).approvals, Repository(),
                    CheckRequest(IntegrateScope, IntegrateGrant(reason).subject, Head()), now).Success?
  {
    hide Judge, Sha, ForgedRecord, GrantsOf, RevokesOf;
    var files := AcceptedWorld(reason).approvals;
    assert Sound(files) && IsGrant(files, EventId("EVT-I")) && files[EventId("EVT-I")] == GrantRecord(IntegrateGrant(reason));
    GrantsAtHead(files, Repository());
    hide AcceptedWorld, Distinct, WellNamed, RevokesHaveGrants, OneGrantEach, AncestryHolds;
    JudgeExact(files, EventId("EVT-I"), CheckRequest(IntegrateScope, IntegrateGrant(reason).subject, Head()), now);
  }

  /** A task whose head was accepted is integrated with another commit, and no evidence of equivalence. */
  lemma ForgedExample(reason: Reason)
    ensures var w, env := AcceptedWorld(reason), Surroundings();
      && Id() in w.ledger && w.ledger[Id()].acceptedCommit == Some(Head()) && Other() != Head()
      && PlannedTask(w, Integrate(Id(), w.ledger[Id()], env, EventId("EVT-1"), Other(), None, None), env).Some?
  {
    hide Sha, ForgedRecord, Forged, PlannedTask, Require, IsShaText, IsDigits, After;
    var w, env := AcceptedWorld(reason), Surroundings();
    ForgedIsForged();
    OtherIsSha();
    IntegrationPasses(reason, 0);
    ForgedIdentity();
    OtherIsIntegrated(w, Id(), env, EventId("EVT-1"), ForgedRecord(), "docs/a.md", Other());
  }

  lemma ForgedIdentity()
    ensures var a := ForgedRecord(); a.taskId == Id() && a.revision == 1 && a.attempt == 1
  {
    hide Sha;
  }

  // ---- A revocation nobody reads -------------------------------------------------------------------------------------

  function SlashedRevoke(reason: Reason): RevokeArgs { RevokeArgs(ApprovalId("APR-D"), EventId("EVT-a/b"), 1, reason, Head()) }

  /** A revocation under the id EVT-a/b is accepted, and the approval still passes. */
  lemma UnreadRevocation(s: Subject, reason: Reason, now: Instant)
    ensures var files := Granted(s, reason);
            var call := Call(RevokeOp(SlashedRevoke(reason)), Repository(), now);
      && RevokeOutcome(files, Repository(), SlashedRevoke(reason), now).Success?
      && Require(Apply(files, call), Repository(), CheckRequest(DispatchScope, s, Head()), now).Success?
  {
    hide Granted, Sha, Require, RevokeOutcome;
    RevocationAccepted(s, reason, now);
    SlashIsNoName();
    GrantedPasses(s, reason, now);
  }

  lemma RevocationAccepted(s: Subject, reason: Reason, now: Instant)
    ensures RevokeOutcome(Granted(s, reason), Repository(), SlashedRevoke(reason), now).Success?
  {
    hide Sha, AncestryHolds, GrantsOf, RevokesOf, RevokesHaveGrants, OneGrantEach, Distinct;
    var files := Granted(s, reason);
    GrantedIsSound(s, reason);
    GrantedAncestry(s, reason);
    SlashIsNoName();
    assert files[EventId("EVT-D")] == GrantRecord(DispatchGrant(s, reason)) by { assert "EVT-D"[4] != "EVT-A"[4]; }
    assert EventId("EVT-a/b") !in files;
    hide Granted;
    GrantLoaded(files, EventId("EVT-D"));
    Untaken(files, EventId("EVT-a/b"));
  }

  lemma Untaken(files: Files, e: EventId)
    requires Sound(files) && e !in files
    ensures !EventIdTaken(EvidenceOf(files), e)
  {
    hide GrantsOf, RevokesOf, Distinct, RevokesHaveGrants, OneGrantEach;
    var ev := EvidenceOf(files);
    forall a | a in ev.grants ensures ev.grants[a].eventId != e { var f := GrantFile(files, a); }
    forall a | a in ev.revokes ensures ev.revokes[a].eventId != e { var f := RevokeFile(files, a); }
  }

  lemma SlashIsNoName()
    ensures !IsFileName("EVT-a/b") && "EVT-a/b" != "EVT-D" && "EVT-a/b" != "EVT-A"
  {
    assert "EVT-a/b"[5] == '/' && |"EVT-a/b"| == 7 && |"EVT-D"| == 5 && |"EVT-A"| == 5;
  }
}
