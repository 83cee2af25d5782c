/** Logs of committed transitions, and what holds of every log whose entries were legitimate when they committed. */
module History {
  import opened Wrappers
  import opened Approvals
  import opened GateFacts
  import opened Ledger
  import opened Events
  import opened EventReader
  import opened AcceptanceFiles
  import opened Transition

  /** A committed transition: the request, its surroundings, the task before and after, the evidence it left, the grant
      it used, and the approval files and the acceptance record of the task as they were. */
  datatype Entry = Entry(
    r: Request, env: Env, before: Task, after: Task, event: Event, outbox: Option<Outbox>,
    acceptance: Option<Acceptance>, grant: Option<Grant>, approvals: Files, reviewed: Option<Acceptance>)
  {
    function Task(): TaskId { r.cas.taskId }
    function Payload(): Payload { r.payload }
  }

  type Tasks = map<TaskId, Task>

  function LedgerAfter(start: Tasks, log: seq<Entry>): Tasks
    decreases |log|
  {
    if log == [] then start
    else
      var last := log[|log| - 1];
      LedgerAfter(start, log[..|log| - 1])[last.Task() := last.after]
  }

  /** An integration is approved for the dispatch and commit that the acceptance record reads to name, and integrates that
      commit unless it shows another one to be equivalent. */
  predicate IntegrationFits(s: Subject, a: Acceptance, p: Payload)
    requires p.ChangeIntegrated?
  {
    && ReadRecord(a).Matter? && s.acceptedCommit.Some?
    && var m := ReadRecord(a).entries;
       && Lookup(m, TaskHeading) == Some(Words(s.taskId.text)) && EqualsNumber(Lookup(m, RevisionHeading), s.revision)
       && EqualsNumber(Lookup(m, AttemptHeading), s.attempt)
       && Lookup(m, DispatchHeading) == Some(Words(s.dispatchId.text))
       && Lookup(m, AcceptedHeading) == Some(Words(s.acceptedCommit.value.text))
       && (s.acceptedCommit.value == p.integrated || (p.equivalenceMethod.Some? && p.equivalenceEvidence.Some?))
  }

  /** An acceptance record says what its event and the ledger say; it accepts the delivered commit, if there is one. */
  predicate AcceptanceFits(t: Task, e: Event, a: Acceptance, commit: Commit) {
    && a.taskId == e.taskId && a.revision == e.revision && Some(a.attempt) == e.attempt
    && Some(a.reviewedDispatch) == e.dispatchId && a.acceptedCommit == commit
    && a.implementation == t.implementation && a.report == t.report
    && (t.implementation.Some? ==> t.implementation == Some(commit))
  }

  /** The grant of a gated transition matches its scope and names the task, revision and attempt of its event. */
  predicate GrantFits(c: Entry) {
    && (c.grant.Some? <==> IsGated(c.Payload()))
    && (c.grant.Some? ==>
          var g := c.grant.value;
          && g.scope == ScopeOf(c.Payload()) && g.subject.taskId == c.event.taskId
          && g.subject.revision == c.event.revision && Some(g.subject.attempt) == c.event.attempt
          && g.eventId in c.approvals && c.approvals[g.eventId] == GrantRecord(g)
          && (c.Payload().ChangeIntegrated? ==>
                c.reviewed.Some? && IntegrationFits(g.subject, c.reviewed.value, c.Payload())))
  }

  /** At its commit all approval records were of HEAD or its ancestors, the grant had not expired, and every revocation of it
      on file lay in the future. */
  predicate GrantAlive(c: Entry) {
    c.grant.Some? ==>
      var g := c.grant.value;
      && AllInHistory(c.approvals, c.env.git) && !IsExpired(g, c.env.now)
      && forall e :: e in c.approvals && c.approvals[e].RevokeRecord? && c.approvals[e].revoke.approvalId == g.approvalId
           ==> c.env.now < c.approvals[e].revoke.revokedAt
  }

  /** The commit passed every check against this task and recorded exactly its effect. */
  predicate Legit(t: Task, c: Entry) {
    && c.before == t
    && Constructible(c.r)
    && CasHolds(t, c.r, c.env)
    && (c.Payload().TaskDispatched? ==> c.Payload().args.newAttempt == t.Attempt() + 1)
    && c.after == After(t, c.Payload(), c.env.Now()) && c.after.state != t.state
    && c.event == EventOf(t, c.r, c.env, c.r.guards + ApprovalGuards(c.r, c.env, c.grant))
    && c.outbox == OutboxOf(c.r, c.env)
    && (c.acceptance.Some? <==> c.Payload().DeliveryAcceptance?)
    && (c.Payload().DeliveryAcceptance? ==>
          c.Payload().path.Some? && AcceptanceFits(t, c.event, c.acceptance.value, c.Payload().commit))
    && (forall g :: g in c.r.guards ==> !g.ApprovalGuard?)
    && GrantFits(c)
  }

  predicate LegitLog(start: Tasks, log: seq<Entry>)
    decreases |log|
  {
    log != [] ==>
      var init, last := log[..|log| - 1], log[|log| - 1];
      && LegitLog(start, init)
      && last.Task() in LedgerAfter(start, init)
      && Legit(LedgerAfter(start, init)[last.Task()], last)
  }

  /** A ledger of fresh tasks, as `docs/pm/state/tasks.yaml` starts out. */
  predicate Fresh(start: Tasks) {
    forall id :: id in start ==> start[id].state.Draft? && start[id].attempt.None? && start[id].dispatch.None?
  }

  // ---- The history of one task ------------------------------------------------------------------------------------

  /** The commits of one task, in order. */
  function Of(log: seq<Entry>, id: TaskId): seq<Entry>
    decreases |log|
  {
    if log == [] then []
    else
      var last := log[|log| - 1];
      Of(log[..|log| - 1], id) + if last.Task() == id then [last] else []
  }

  /** A linked chain: each commit starts from the task the one before it left, the first from `t`. */
  predicate Chain(t: Task, cs: seq<Entry>)
    decreases |cs|
  {
    cs != [] ==>
      var init, last := cs[..|cs| - 1], cs[|cs| - 1];
      Chain(t, init) && Legit(End(t, init), last)
  }

  function End(t: Task, cs: seq<Entry>): Task { if cs == [] then t else cs[|cs| - 1].after }

  /** The ledger state of every task is the end of a linked chain of its own committed transitions. */
  lemma {:induction false} LedgerIsChainEnd(start: Tasks, log: seq<Entry>, id: TaskId)
    requires LegitLog(start, log)
    ensures LedgerAfter(start, log).Keys == start.Keys
    ensures id in start ==> Chain(start[id], Of(log, id)) && LedgerAfter(start, log)[id] == End(start[id], Of(log, id))
    ensures id !in start ==> Of(log, id) == []
    decreases |log|
  {
    hide Legit;
    if log != [] {
      var init, last := log[..|log| - 1], log[|log| - 1];
      LedgerIsChainEnd(start, init, id);
      if last.Task() == id {
        var cs := Of(log, id);
        assert cs == Of(init, id) + [last] && cs[..|cs| - 1] == Of(init, id) && cs[|cs| - 1] == last;
        assert Chain(start[id], cs);
      } else {
        assert Of(log, id) == Of(init, id);
      }
    }
  }

  /** The events of a chain are linked through their states, from the task's first state to its current one. */
  lemma {:induction false} ChainLinksEvents(t: Task, cs: seq<Entry>, i: nat)
    requires Chain(t, cs) && i < |cs|
    ensures cs[i].event.fromState == (if i == 0 then t.state else cs[i - 1].event.toState)
    ensures MayLeave(cs[i].Payload(), cs[i].event.fromState)
    ensures End(t, cs).state == cs[|cs| - 1].event.toState
    decreases |cs|
  {
    hide IntegrationFits;
    var init, last := cs[..|cs| - 1], cs[|cs| - 1];
    StepFacts(End(t, init), last);
    if init != [] {
      StepFacts(End(t, init[..|init| - 1]), init[|init| - 1]);
    }
    hide Legit;
    if i < |cs| - 1 {
      ChainLinksEvents(t, init, i);
    }
  }

  /** What one legitimate transition does to the state, the counters and the dispatch. */
  lemma StepFacts(t: Task, c: Entry)
    requires Legit(t, c)
    ensures c.event.id == c.r.eventId && c.event.taskId == c.Task() && c.event.revision == t.revision
    ensures c.event.fromState == t.state && c.event.toState == c.after.state == TargetOf(c.Payload())
    ensures MayLeave(c.Payload(), t.state) && c.event.attempt == c.after.attempt
    ensures c.after.Attempt() == t.Attempt() + (if c.event.kind.Dispatching? then 1 else 0)
    ensures c.after.revision == t.revision + (if c.event.kind.Rescoping? then 1 else 0)
    ensures c.event.kind.Dispatching? ==> t.dispatch.None? && c.after.attempt.Some?
    ensures c.after.dispatch == DispatchAfter(t, c.Payload(), c.env.Now())
    ensures Closes(c) ==> t.dispatch.Some? && t.attempt.Some? && c.after.dispatch.None?
  {
    hide IntegrationFits;
  }

  /** The transitions that end a dispatch one way or the other. */
  predicate Closes(c: Entry) {
    c.event.kind.Acceptation? || c.event.kind.Return? || c.event.kind.Failing?
  }

  // ---- Every prefix of a log -------------------------------------------------------------------------------------

  lemma {:induction false} PrefixLegit(start: Tasks, log: seq<Entry>, n: nat)
    requires LegitLog(start, log) && n <= |log|
    ensures LegitLog(start, log[..n])
    ensures n < |log| ==> log[n].Task() in LedgerAfter(start, log[..n])
                          && Legit(LedgerAfter(start, log[..n])[log[n].Task()], log[n])
    decreases |log|
  {
    hide Legit;
    if n == |log| {
      assert log[..n] == log;
    } else if n < |log| - 1 {
      var init := log[..|log| - 1];
      PrefixLegit(start, init, n);
      assert init[..n] == log[..n];
    }
  }

  lemma {:induction false} LedgerKeys(start: Tasks, log: seq<Entry>)
    requires LegitLog(start, log)
    ensures LedgerAfter(start, log).Keys == start.Keys
    decreases |log|
  {
    hide Legit;
    if log != [] {
      LedgerKeys(start, log[..|log| - 1]);
    }
  }

  // ---- Counting ---------------------------------------------------------------------------------------------------

  function Count(log: seq<Entry>, id: TaskId, kind: Kind): nat
    decreases |log|
  {
    if log == [] then 0
    else
      var last := log[|log| - 1];
      Count(log[..|log| - 1], id, kind) + if last.Task() == id && last.event.kind == kind then 1 else 0
  }

  /** The attempt counts the committed dispatches and the revision the committed rescopes, from wherever they
      started. */
  lemma {:induction false} CountersExact(start: Tasks, log: seq<Entry>, id: TaskId)
    requires LegitLog(start, log) && id in start
    ensures LedgerAfter(start, log).Keys == start.Keys
    ensures LedgerAfter(start, log)[id].Attempt() == start[id].Attempt() + Count(log, id, Dispatching)
    ensures LedgerAfter(start, log)[id].revision == start[id].revision + Count(log, id, Rescoping)
    decreases |log|
  {
    LedgerKeys(start, log);
    if log != [] {
      var init, last := log[..|log| - 1], log[|log| - 1];
      CountersExact(start, init, id);
      if last.Task() == id {
        StepFacts(LedgerAfter(start, init)[id], last);
      }
      hide Legit;
    }
  }

  /** An accepted or terminal task holds no dispatch, and a held dispatch is that of the current attempt. */
  predicate Tidy(t: Task) {
    && (t.state.Accepted? || IsTerminal(t.state) ==> t.dispatch.None?)
    && (t.dispatch.Some? ==> t.attempt == Some(t.dispatch.value.attempt))
  }

  lemma {:induction false} TidyForever(start: Tasks, log: seq<Entry>, id: TaskId)
    requires LegitLog(start, log) && id in start && Tidy(start[id])
    ensures LedgerAfter(start, log).Keys == start.Keys && Tidy(LedgerAfter(start, log)[id])
    decreases |log|
  {
    hide Legit, Tidy;
    LedgerKeys(start, log);
    if log != [] {
      var init, last := log[..|log| - 1], log[|log| - 1];
      TidyForever(start, init, id);
      if last.Task() == id {
        StaysTidy(LedgerAfter(start, init)[id], last);
      }
    }
  }

  lemma StaysTidy(t: Task, c: Entry)
    requires Legit(t, c) && Tidy(t)
    ensures Tidy(c.after)
  {
  }

  predicate IsActive(s: State) { s.Dispatched? || s.InProgress? || s.ReviewReady? }

  /** A commit that resumes work or review on a task whose dispatch the blocking cleared. */
  predicate Strands(c: Entry) {
    c.event.kind.Resolution? && IsActive(c.after.state) && c.before.dispatch.None?
  }

  /** A commit leaves a task being worked on or reviewed without a dispatch exactly if it is such a resolution. */
  lemma StrandsExactly(t: Task, c: Entry)
    requires Legit(t, c)
    ensures IsActive(c.after.state) && c.after.dispatch.None? <==> Strands(c)
  {
    hide IntegrationFits;
  }

  /** A task is being worked on or reviewed without a dispatch exactly if its last commit is a resolution that resumed it
      without one; before its first commit it is as it was at the start. */
  lemma {:induction false} ActiveHoldsDispatch(start: Tasks, log: seq<Entry>, id: TaskId)
    requires LegitLog(start, log) && id in start
    ensures LedgerAfter(start, log).Keys == start.Keys
    ensures var t, cs := LedgerAfter(start, log)[id], Of(log, id);
      IsActive(t.state) && t.dispatch.None? <==>
        if cs == [] then IsActive(start[id].state) && start[id].dispatch.None? else Strands(cs[|cs| - 1])
    decreases |log|
  {
    hide Legit, IsActive, Strands;
    LedgerKeys(start, log);
    if log != [] {
      var init, last := log[..|log| - 1], log[|log| - 1];
      ActiveHoldsDispatch(start, init, id);
      if last.Task() == id {
        StrandsExactly(LedgerAfter(start, init)[id], last);
        assert Of(log, id) == Of(init, id) + [last];
      } else {
        assert Of(log, id) == Of(init, id);
      }
    }
  }

  /** A resolution may resume a task whose dispatch the blocking cleared; then only blocking, cancelling or superseding
      it is possible. */
  lemma StrandedByResolution(t: Task, c: Entry, d: Entry)
    requires Legit(t, c) && c.event.kind.Resolution? && IsActive(c.after.state) && t.dispatch.None? && Legit(c.after, d)
    ensures c.after.dispatch.None?
    ensures d.event.kind.Blocking? || d.event.kind.Cancelling? || d.event.kind.Superseding?
  {
  }

  // ---- Attempts ---------------------------------------------------------------------------------------------------

  lemma ClosedLetsGo(t: Task, c: Entry)
    requires Legit(t, c) && Closes(c)
    ensures c.after.dispatch.None?
  {
    hide AcceptanceFits, IntegrationFits, GrantFits;
  }

  lemma LaterHeld(t: Task, c: Entry, n: int)
    requires Legit(t, c) && t.Attempt() >= n && (t.dispatch.Some? ==> t.Attempt() > n)
    ensures c.after.Attempt() >= n && (c.after.dispatch.Some? ==> c.after.Attempt() > n)
  {
    StepFacts(t, c);
    hide AcceptanceFits, IntegrationFits, GrantFits;
  }

  /** Attempts never fall, and once an attempt is closed, any dispatch the task holds is of a later one. */
  lemma {:induction false} AttemptsGrow(start: Tasks, log: seq<Entry>, i: nat)
    requires LegitLog(start, log) && i < |log|
    ensures LedgerAfter(start, log).Keys == start.Keys && log[i].Task() in start
    ensures var t := LedgerAfter(start, log)[log[i].Task()];
            t.Attempt() >= log[i].after.Attempt()
            && (Closes(log[i]) && t.dispatch.Some? ==> t.Attempt() > log[i].after.Attempt())
    decreases |log|
  {
    hide Legit;
    LedgerKeys(start, log);
    var init, last := log[..|log| - 1], log[|log| - 1];
    LedgerKeys(start, init);
    StepFacts(LedgerAfter(start, init)[last.Task()], last);
    if Closes(last) { ClosedLetsGo(LedgerAfter(start, init)[last.Task()], last); }
    if i < |log| - 1 {
      AttemptsGrow(start, init, i);
      if log[i].Task() == last.Task() && Closes(log[i]) {
        LaterHeld(LedgerAfter(start, init)[last.Task()], last, log[i].after.Attempt());
      }
    }
  }

  /** Each attempt of a task is dispatched at most once and closed at most once: by acceptance, return or failure. */
  lemma AttemptOnce(start: Tasks, log: seq<Entry>, i: nat, j: nat)
    requires LegitLog(start, log) && i < j < |log| && log[i].Task() == log[j].Task()
    requires (Closes(log[i]) && Closes(log[j])) || (log[i].event.kind.Dispatching? && log[j].event.kind.Dispatching?)
    ensures log[i].event.attempt.Some? && log[j].event.attempt.Some?
    ensures log[i].event.attempt.value < log[j].event.attempt.value
  {
    PrefixLegit(start, log, i);
    PrefixLegit(start, log, j);
    StepFacts(LedgerAfter(start, log[..i])[log[i].Task()], log[i]);
    StepFacts(LedgerAfter(start, log[..j])[log[j].Task()], log[j]);
    AttemptsGrow(start, log[..j], i);
  }

  /** Nothing follows a terminal transition. */
  lemma {:induction false} TerminalIsFinal(start: Tasks, log: seq<Entry>, i: nat)
    requires LegitLog(start, log) && i < |log| && IsTerminal(log[i].after.state)
    ensures LedgerAfter(start, log).Keys == start.Keys && log[i].Task() in start
    ensures LedgerAfter(start, log)[log[i].Task()] == log[i].after
    ensures forall j :: i < j < |log| ==> log[j].Task() != log[i].Task()
    decreases |log|
  {
    hide Legit;
    LedgerKeys(start, log);
    var init, last := log[..|log| - 1], log[|log| - 1];
    LedgerKeys(start, init);
    StepFacts(LedgerAfter(start, init)[last.Task()], last);
    if i < |log| - 1 {
      TerminalIsFinal(start, init, i);
    }
  }

  // ---- Acceptance and integration ---------------------------------------------------------------------------------

  /** An accepted task is exactly as its own acceptance left it. */
  lemma {:induction false} AcceptedBy(start: Tasks, log: seq<Entry>, id: TaskId) returns (i: nat)
    requires LegitLog(start, log) && id in start && !start[id].state.Accepted?
    requires LedgerAfter(start, log).Keys == start.Keys && LedgerAfter(start, log)[id].state.Accepted?
    ensures i < |log| && log[i].Task() == id && log[i].Payload().DeliveryAcceptance?
    ensures LedgerAfter(start, log)[id] == log[i].after
    decreases |log|
  {
    hide IntegrationFits;
    var init, last := log[..|log| - 1], log[|log| - 1];
    LedgerKeys(start, init);
    if last.Task() == id {
      StepFacts(LedgerAfter(start, init)[id], last);
      hide Legit, MayLeave;
      i := |log| - 1;
    } else {
      i := AcceptedBy(start, init, id);
    }
  }

  /** An integration follows the acceptance of the same attempt. */
  lemma IntegrationAfterAcceptance(start: Tasks, log: seq<Entry>, j: nat) returns (i: nat)
    requires LegitLog(start, log) && j < |log| && log[j].Payload().ChangeIntegrated?
    requires log[j].Task() in start ==> !start[log[j].Task()].state.Accepted?
    ensures i < j && log[i].Task() == log[j].Task() && log[i].Payload().DeliveryAcceptance?
    ensures log[j].before == log[i].after
    ensures log[i].event.attempt == log[j].event.attempt
  {
    hide IntegrationFits, GrantFits, AcceptanceFits, CasHolds, EventOf;
    var id := log[j].Task();
    PrefixLegit(start, log, j);
    LedgerKeys(start, log[..j]);
    var t := LedgerAfter(start, log[..j])[id];
    StepFacts(t, log[j]);
    i := AcceptedBy(start, log[..j], id);
    PrefixLegit(start, log, i);
    StepFacts(LedgerAfter(start, log[..i])[id], log[i]);
    SameAttempt(t, log[j]);
    hide LegitLog, LedgerAfter;
  }

  /** The commit of the latest submission for an attempt, if there was one. */
  function LatestSubmission(cs: seq<Entry>, attempt: Option<int>): Option<Commit>
    decreases |cs|
  {
    if cs == [] then None
    else
      var last := cs[|cs| - 1];
      if last.Payload().DeliverySubmission? && last.event.attempt == attempt then Some(last.Payload().implementation)
      else LatestSubmission(cs[..|cs| - 1], attempt)
  }

  /** No submission is for an attempt still to come, and as long as a dispatch is held, the latest submission of its
      attempt is the recorded delivery. */
  ghost predicate DeliveryKnown(t: Task, cs: seq<Entry>) {
    && (forall a :: a > t.Attempt() ==> LatestSubmission(cs, Some(a)) == None)
    && (t.dispatch.Some? && LatestSubmission(cs, t.attempt).Some? ==> t.implementation == LatestSubmission(cs, t.attempt))
  }

  lemma {:induction false} DeliveryStaysKnown(t: Task, cs: seq<Entry>)
    requires Chain(t, cs)
    ensures DeliveryKnown(End(t, cs), cs)
    decreases |cs|
  {
    hide Legit, DeliveryKnown;
    if cs == [] {
      NothingSubmitted(t);
    } else {
      var init, last := cs[..|cs| - 1], cs[|cs| - 1];
      DeliveryStaysKnown(t, init);
      DeliveryStep(End(t, init), init, last);
      assert init + [last] == cs;
    }
  }

  lemma NothingSubmitted(t: Task)
    ensures DeliveryKnown(t, [])
  {
  }

  lemma DeliveryStep(t: Task, cs: seq<Entry>, c: Entry)
    requires Legit(t, c) && DeliveryKnown(t, cs)
    ensures DeliveryKnown(c.after, cs + [c])
  {
    StepFacts(t, c);
    DeliveryFacts(t, c);
    var all := cs + [c];
    assert all[..|all| - 1] == cs && all[|all| - 1] == c;
    hide Legit, MayLeave;
  }

  /** What a commit does to the recorded delivery. */
  lemma DeliveryFacts(t: Task, c: Entry)
    requires Legit(t, c)
    ensures c.Payload().DeliverySubmission? ==>
              t.attempt.Some? && c.event.attempt == t.attempt && c.after.implementation == Some(c.Payload().implementation)
    ensures c.event.kind.Dispatching? <==> c.Payload().TaskDispatched?
    ensures c.Payload().TaskDispatched? ==> c.after.attempt == Some(t.Attempt() + 1)
    ensures !c.Payload().TaskDispatched? ==> c.after.attempt == t.attempt && (c.after.dispatch.Some? ==> t.dispatch == c.after.dispatch)
    ensures c.after.dispatch.Some? && !c.Payload().DeliverySubmission? ==> c.after.implementation == t.implementation
  {
    hide IntegrationFits;
  }

  lemma KindIs(t: Task, c: Entry)
    requires Legit(t, c)
    ensures c.event.kind == KindOf(c.Payload())
  {
  }

  /** What is accepted is the latest submission of the very same attempt, if there was one; there was none only if a
      blocker was resolved into the review although there was none, or the task was under review from the start. */
  lemma AcceptsWhatWasSubmitted(start: Tasks, log: seq<Entry>, j: nat)
    requires LegitLog(start, log) && j < |log| && log[j].Payload().DeliveryAcceptance? && log[j].Task() in start
    ensures var id := log[j].Task();
            var cs := Of(log[..j], id);
            match LatestSubmission(cs, log[j].event.attempt)
            case Some(commit) => log[j].Payload().commit == commit
            case None =>
              if cs == [] then start[id].state.ReviewReady?
              else cs[|cs| - 1].event.kind.Resolution? && cs[|cs| - 1].event.toState.ReviewReady?
                   && LatestSubmission(cs[..|cs| - 1], log[j].event.attempt) == None
  {
    hide Legit, LegitLog, LedgerAfter, Chain, Of;
    var id := log[j].Task();
    var cs := Of(log[..j], id);
    PrefixLegit(start, log, j);
    LedgerIsChainEnd(start, log[..j], id);
    DeliveryStaysKnown(start[id], cs);
    AcceptanceFacts(End(start[id], cs), log[j]);
    if cs != [] && LatestSubmission(cs, log[j].event.attempt).None? {
      ReviewedByResolution(start[id], cs);
    }
  }

  lemma AcceptanceFacts(t: Task, c: Entry)
    requires Legit(t, c) && c.Payload().DeliveryAcceptance?
    ensures t.state.ReviewReady? && t.dispatch.Some? && c.event.attempt == t.attempt
    ensures t.implementation.Some? ==> t.implementation == Some(c.Payload().commit)
  {
  }

  /** A task under review whose attempt has no submission came there by a resolution. */
  lemma ReviewedByResolution(t: Task, cs: seq<Entry>)
    requires Chain(t, cs) && cs != [] && End(t, cs).state.ReviewReady?
    requires LatestSubmission(cs, End(t, cs).attempt).None?
    ensures cs[|cs| - 1].event.kind.Resolution? && cs[|cs| - 1].event.toState.ReviewReady?
  {
    var init, last := cs[..|cs| - 1], cs[|cs| - 1];
    StepFacts(End(t, init), last);
    DeliveryFacts(End(t, init), last);
    KindIs(End(t, init), last);
    hide Legit, MayLeave;
  }

  lemma SameAttempt(t: Task, c: Entry)
    requires Legit(t, c) && !c.Payload().TaskDispatched?
    ensures c.before == t && c.event.attempt == t.attempt
  {
  }

  // ---- Grants -----------------------------------------------------------------------------------------------------

  /** Two gated commits never use the same grant:
      a dispatch because attempts rise, an acceptance because it clears the dispatch, an integration because it is
      final. */
  lemma GrantUsedOnce(start: Tasks, log: seq<Entry>, i: nat, j: nat)
    requires LegitLog(start, log) && i < j < |log|
    requires IsGated(log[i].Payload()) && IsGated(log[j].Payload())
    ensures log[i].grant.Some? && log[j].grant.Some? && log[i].grant != log[j].grant
  {
    hide IntegrationFits;
    PrefixLegit(start, log, i);
    PrefixLegit(start, log, j);
    var ti, tj := LedgerAfter(start, log[..i])[log[i].Task()], LedgerAfter(start, log[..j])[log[j].Task()];
    StepFacts(ti, log[i]);
    StepFacts(tj, log[j]);
    GatedKinds(ti, log[i]);
    GatedKinds(tj, log[j]);
    hide Legit, GrantFits, LegitLog;
    if log[i].grant == log[j].grant {
      if log[i].Payload().ChangeIntegrated? {
        TerminalIsFinal(start, log, i);
      } else {
        AttemptOnce(start, log, i, j);
      }
    }
  }

  lemma GatedKinds(t: Task, c: Entry)
    requires Legit(t, c) && IsGated(c.Payload())
    ensures c.grant.Some?
    ensures c.Payload().TaskDispatched? <==> c.event.kind.Dispatching?
    ensures c.Payload().DeliveryAcceptance? ==> c.event.kind.Acceptation?
    ensures c.grant.value.scope == ScopeOf(c.Payload()) && c.grant.value.subject.taskId == c.Task()
    ensures Some(c.grant.value.subject.attempt) == c.event.attempt
  {
    hide IntegrationFits;
  }
}
