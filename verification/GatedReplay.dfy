/** Repeating a committed dispatch, acceptance or integration, in terms of the texts of the request and its approval. */
module GatedReplay {
  import opened Wrappers
  import opened Texts
  import opened Approvals
  import opened ApprovalRuns
  import opened Ledger
  import opened Events
  import opened EventReader
  import opened EventLines
  import opened EventGuards
  import opened EventReading
  import opened EventRecovery
  import opened EventTexts
  import opened Transition
  import opened ControlPlaneRuns
  import opened Replay

  // ---- What the constructors enforce of the texts -----------------------------------------------------------------

  predicate SpelledDispatch(d: Option<DispatchId>) { d.Some? ==> IsSafeText(d.value.text) }

  predicate SpelledIntegration(t: Task, p: Payload)
    requires p.ChangeIntegrated?
  {
    && IsShaText(p.integrated.text) && (t.acceptedCommit.Some? ==> IsShaText(t.acceptedCommit.value.text))
    && (p.equivalenceMethod.Some? ==> IsMethodText(p.equivalenceMethod.value.text))
    && (p.equivalenceEvidence.Some? ==> IsSafeText(p.equivalenceEvidence.value.text))
  }

  /** The texts of a request, of the task it is for, and of the grant it uses. */
  predicate Spelled(t: Task, r: Request, g: Grant) {
    && IsTaskIdText(r.cas.taskId.text) && IsEventIdText(r.eventId.text)
    && SpelledDispatch(EventDispatch(t, r))
    && (r.source.Some? ==> IsSafeText(r.source.value.text))
    && (forall ref :: ref in r.evidenceRefs ==> IsReferenceText(ref.text))
    && (forall guard :: guard in r.guards ==> SpelledGuard(guard))
    && (r.payload.ChangeIntegrated? ==> SpelledIntegration(t, r.payload))
    && IsApprovalText(g.approvalId.text) && IsEventIdText(g.eventId.text)
  }

  // ---- The condition ----------------------------------------------------------------------------------------------

  /** The reference to evidence of equivalence that goes into the event. */
  function EquivalenceOf(r: Request): Option<Text> {
    if r.payload.ChangeIntegrated? && r.payload.equivalenceMethod.Some? then r.payload.equivalenceEvidence else None
  }

  /** What a caller can check beforehand: no guard besides the approval's; no reference that reads as an entry; a dispatch
      id that is not all digits; a source and an equivalence reference that are no unconvertible digits; numbers of at most
      4300 digits; an event id that is more than its prefix; an approval id and an evidence path that need no quotes. */
  predicate TextsFit(t: Task, r: Request, env: Env, g: Grant) {
    && r.guards == [] && Quiet(r.evidenceRefs)
    && (EventDispatch(t, r).Some? ==> !IsDigits(EventDispatch(t, r).value.text))
    && (r.source.Some? ==> Readable(r.source.value.text))
    && (EquivalenceOf(r).Some? ==> Readable(EquivalenceOf(r).value.text))
    && IsShort(r.cas.revision) && (EventAttempt(t, r.payload).Some? ==> IsShort(EventAttempt(t, r.payload).value))
    && IsShort(env.leaseEpoch)
    && IdReads(r.eventId.text) && Bare(g.approvalId.text) && Bare(PathText(g.eventId))
  }

  function CommittedEvent(t: Task, r: Request, env: Env, g: Grant): Event {
    EventOf(t, r, env, r.guards + ApprovalGuards(r, env, Some(g)))
  }

  lemma CommittedIsSpelled(t: Task, r: Request, env: Env, g: Grant)
    requires IsGated(r.payload) && Spelled(t, r, g)
    ensures var e := CommittedEvent(t, r, env, g); SpelledEvent(e) && HasApproval(e) && IsGatedEvent(e.kind)
  {
    hide IsTaskIdText, IsEventIdText, IsSafeText, IsReferenceText, IsShaText, IsMethodText, IsApprovalText, EventDispatch, EventAttempt, IsTimeText,
      OneLine;
    var e := CommittedEvent(t, r, env, g);
    var last := ApprovalGuards(r, env, Some(g))[0];
    assert SpelledGuard(last);
    hide SpelledGuard;
    assert forall guard :: guard in e.guards ==> guard in r.guards || guard == last;
  }

  lemma LegibleMeans(t: Task, r: Request, env: Env, g: Grant)
    requires IsGated(r.payload)
    ensures Legible(CommittedEvent(t, r, env, g)) <==> TextsFit(t, r, env, g)
  {
    hide Quiet, IsDigits, IsCountable, IsShort, IdReads, Bare, PathText, EventDispatch, EventAttempt;
    var e, approval := CommittedEvent(t, r, env, g), ApprovalGuards(r, env, Some(g));
    assert |approval| == 1 && e.guards == r.guards + approval;
    assert Lone(e) <==> r.guards == [];
    if r.guards == [] {
      assert e.guards[0] == approval[0];
    }
    assert Equivalence(e) == if EquivalenceOf(r).Some? then Some(EquivalenceOf(r).value.text) else None;
  }

  /** Repeating a committed gated call in the same second and epoch gives the same answer exactly if the text of its event
      is recoverable; it is if the texts of the call fit, and with references on one line each only then. */
  lemma RepeatedGatedCall(w: World, r: Request, env: Env, budget: nat, env': Env, budget': nat)
    requires Constructible(r) && Sound(w.approvals) && SameMoment(env, env') && IsGated(r.payload)
    requires Prepare(w, r, env).Write? && Execute(w, r, env, budget).1.Success?
    requires r.cas.taskId in w.ledger && Prepare(w, r, env).grant.Some?
    requires Spelled(w.ledger[r.cas.taskId], r, Prepare(w, r, env).grant.value)
    ensures var (w', answer) := Execute(w, r, env, budget);
            var again := Execute(w', r, env', budget').1;
            var t, g := w.ledger[r.cas.taskId], Prepare(w, r, env).grant.value;
            var committed := CommittedEvent(t, r, env, g);
            && (again == answer <==> Recoverable(committed)) && (!Recoverable(committed) ==> again.Failure?)
            && (TextsFit(t, r, env, g) ==> Recoverable(committed))
            && (OneLineReferences(r.evidenceRefs) && Recoverable(committed) ==> TextsFit(t, r, env, g))
  {
    hide Prepare, Execute, Sound, SameMoment, Constructible, Spelled, TextsFit, SpelledEvent, HasApproval, Legible, CommittedEvent, RecoverGuard,
      EventText, GuardTexts, OneLineReferences, Repeatable, GivesBack, IsGatedEvent, Recoverable;
    var t, plan := w.ledger[r.cas.taskId], Prepare(w, r, env);
    RepeatedCall(w, r, env, budget, env', budget');
    WhoIsRepeatable(t, r, plan.event);
    CommittedWas(w, r, env);
    CommittedIsSpelled(t, r, env, plan.grant.value);
    LegibleMeans(t, r, env, plan.grant.value);
    GivesBackExactly(plan.event);
  }

  lemma CommittedWas(w: World, r: Request, env: Env)
    requires Constructible(r) && Prepare(w, r, env).Write? && Prepare(w, r, env).grant.Some? && r.cas.taskId in w.ledger
    ensures Prepare(w, r, env).event == CommittedEvent(w.ledger[r.cas.taskId], r, env, Prepare(w, r, env).grant.value)
    ensures Prepare(w, r, env).event.evidenceRefs == r.evidenceRefs
  {
    hide Prepare, PlanFresh, Constructible, PathFits, CasHolds, GrantFor, After, FreshAcceptance, Orphans, OutboxOf;
    WriteIsFresh(w, r, env);
    FreshMeans(w, w.ledger[r.cas.taskId], r, env);
  }

  lemma GivesBackExactly(e: Event)
    requires SpelledEvent(e) && HasApproval(e) && IsGatedEvent(e.kind)
    ensures GivesBack(e) <==> Recoverable(e)
    ensures Legible(e) ==> Recoverable(e)
    ensures OneLineReferences(e.evidenceRefs) && Recoverable(e) ==> Legible(e)
  {
    hide SpelledEvent, Legible, RecoverGuard, EventText, GuardTexts, OneLineReferences, Recoverable;
    RecoverableExactly(e);
    RecoveredExactly(e);
  }

  // ---- Ordinary requests ------------------------------------------------------------------------------------------

  predicate IsOrdinaryChar(c: char) {
    'a' <= c <= 'z' || 'A' <= c <= 'Z' || '0' <= c <= '9' || c == '-' || c == '_' || c == '.' || c == '/'
  }

  /** Letters, digits and a little punctuation, starting with a letter and longer than any keyword. */
  predicate IsOrdinary(s: string) {
    && |s| > 5 && ('a' <= s[0] <= 'z' || 'A' <= s[0] <= 'Z')
    && forall i :: 0 <= i < |s| ==> IsOrdinaryChar(s[i])
  }

  lemma OrdinaryChar(c: char)
    requires IsOrdinaryChar(c)
    ensures !IsSpecial(c) && !IsSpace(c) && c != ' ' && c != '\t' && !IsSpace(LowerChar(c))
  {
  }

  lemma OrdinaryIsBare(s: string)
    requires IsOrdinary(s)
    ensures Bare(s) && !IsDigits(s) && IdReads(s)
  {
    hide Strip, Lower, IsDigits, IsSpecial, IsSpace, IsKeyword, IsOrdinaryChar;
    forall i | 0 <= i < |s| ensures !IsSpecial(s[i]) { OrdinaryChar(s[i]); }
    OrdinaryChar(s[0]);
    OrdinaryChar(s[|s| - 1]);
    NoDigits(s);
    StripKeeps(s);
    OrdinaryIsNoKeyword(s);
    assert !IsLeading(s[0]);
  }

  lemma OrdinaryIsNoKeyword(s: string)
    requires IsOrdinary(s)
    ensures !IsKeyword(Strip(Lower(s))) && |s| > 1
  {
    hide Strip, Lower, IsSpace, IsKeyword, IsOrdinaryChar;
    OrdinaryChar(s[0]);
    OrdinaryChar(s[|s| - 1]);
    LowerAt(s, 0);
    LowerAt(s, |s| - 1);
    StripKeeps(Lower(s));
    KeywordsAreShort(Lower(s));
  }

  lemma KeywordsAreShort(s: string)
    requires |s| > 5
    ensures !IsKeyword(s)
  {
  }

  lemma PathIsOrdinary(e: EventId)
    requires IsOrdinary(e.text)
    ensures IsOrdinary(PathText(e))
  {
    var path := PathText(e);
    assert path[..18] == "docs/pm/approvals/" && path[18..18 + |e.text|] == e.text && path[18 + |e.text|..] == ".yaml";
    PathPartsAreOrdinary();
    assert path[0] == path[..18][0];
    hide IsOrdinaryChar, PathText;
    forall i | 0 <= i < |path| ensures IsOrdinaryChar(path[i]) {
      if i < 18 {
        assert path[i] == path[..18][i];
      } else if i < 18 + |e.text| {
        assert path[i] == e.text[i - 18];
      } else {
        assert path[i] == path[18 + |e.text|..][i - 18 - |e.text|];
      }
    }
  }

  lemma PathPartsAreOrdinary()
    ensures "docs/pm/approvals/"[0] == 'd' && forall i :: 0 <= i < 18 ==> IsOrdinaryChar("docs/pm/approvals/"[i])
    ensures forall i :: 0 <= i < 5 ==> IsOrdinaryChar(".yaml"[i])
  {
  }

  /** A request with ordinary ids, without guards of its own, and with no colon in a reference after the first, fits. */
  lemma OrdinaryTextsFit(t: Task, r: Request, env: Env, g: Grant)
    requires r.guards == [] && OneLineReferences(r.evidenceRefs) && FewColons(r.evidenceRefs)
    requires forall ref :: ref in r.evidenceRefs ==> IsReferenceText(ref.text)
    requires EventDispatch(t, r).Some? ==> IsOrdinary(EventDispatch(t, r).value.text)
    requires r.source.Some? ==> IsOrdinary(r.source.value.text)
    requires EquivalenceOf(r).Some? ==> IsOrdinary(EquivalenceOf(r).value.text)
    requires IsShort(r.cas.revision) && IsShort(env.leaseEpoch)
    requires EventAttempt(t, r.payload).Some? ==> IsShort(EventAttempt(t, r.payload).value)
    requires IsOrdinary(r.eventId.text) && IsOrdinary(g.approvalId.text) && IsOrdinary(g.eventId.text)
    ensures TextsFit(t, r, env, g)
  {
    hide IsOrdinary, Quiet, Bare, IsDigits, IdReads, IsShort, PathText, EventDispatch, EventAttempt, FewColons, OneLineReferences, IsCountable;
    QuietExactly(r.evidenceRefs);
    OrdinaryIsBare(r.eventId.text);
    OrdinaryIsBare(g.approvalId.text);
    PathIsOrdinary(g.eventId);
    OrdinaryIsBare(PathText(g.eventId));
    if EventDispatch(t, r).Some? { OrdinaryIsBare(EventDispatch(t, r).value.text); }
    if r.source.Some? { OrdinaryIsBare(r.source.value.text); }
    if EquivalenceOf(r).Some? { OrdinaryIsBare(EquivalenceOf(r).value.text); }
  }

  // ---- Requests that are refused when repeated --------------------------------------------------------------------

  /** A second reference with a colon, such as a web address, makes the repetition of a committed gated call fail. */
  lemma WebAddressIsNotRepeatable(w: World, r: Request, env: Env, budget: nat, env': Env, budget': nat)
    requires Constructible(r) && Sound(w.approvals) && SameMoment(env, env') && IsGated(r.payload)
    requires Prepare(w, r, env).Write? && Execute(w, r, env, budget).1.Success?
    requires r.cas.taskId in w.ledger && Prepare(w, r, env).grant.Some?
    requires Spelled(w.ledger[r.cas.taskId], r, Prepare(w, r, env).grant.value)
    requires r.evidenceRefs == [Text("docs/a.md"), Text("https://x/y")]
    ensures Execute(Execute(w, r, env, budget).0, r, env', budget').1.Failure?
  {
    hide Prepare, Execute, Sound, SameMoment, Constructible, Spelled;
    RepeatedGatedCall(w, r, env, budget, env', budget');
    WebAddress();
    QuietExactly(r.evidenceRefs);
    hide Quiet;
  }

  lemma WebAddress()
    ensures var refs := [Text("docs/a.md"), Text("https://x/y")];
      OneLineReferences(refs) && !FewColons(refs) && forall ref :: ref in refs ==> ref.text != ""
  {
    var refs := [Text("docs/a.md"), Text("https://x/y")];
    assert refs[1].text[5] == ':';
  }

  /** So does a dispatch id that is all digits. */
  lemma DigitsAreNotRepeatable(w: World, r: Request, env: Env, budget: nat, env': Env, budget': nat)
    requires Constructible(r) && Sound(w.approvals) && SameMoment(env, env') && r.payload.TaskDispatched?
    requires Prepare(w, r, env).Write? && Execute(w, r, env, budget).1.Success?
    requires r.cas.taskId in w.ledger && Prepare(w, r, env).grant.Some?
    requires Spelled(w.ledger[r.cas.taskId], r, Prepare(w, r, env).grant.value)
    requires OneLineReferences(r.evidenceRefs) && IsDigits(r.payload.args.dispatchId.text)
    ensures Execute(Execute(w, r, env, budget).0, r, env', budget').1.Failure?
  {
    hide Prepare, Execute, Sound, SameMoment, Constructible, Spelled, IsDigits, Quiet;
    RepeatedGatedCall(w, r, env, budget, env', budget');
  }
}
