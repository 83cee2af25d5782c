/** The control plane as the object that the transition service works on: five stores, changed one file at a time. */
module ControlPlane {
  import opened Wrappers
  import opened Approvals
  import opened ApprovalStore
  import opened Ledger
  import opened Events
  import opened AcceptanceFiles
  import opened Texts
  import opened Transition

  lemma {:induction false} PutAllStep(w: World, fs: seq<FileWrite>, n: nat)
    requires n < |fs|
    ensures PutAll(w, fs[..n + 1]) == Put(PutAll(w, fs[..n]), fs[n])
    decreases n
  {
    if n == 0 {
      assert fs[..1][1..] == [];
    } else {
      assert fs[..n + 1][1..] == fs[1..][..n] && fs[..n][1..] == fs[1..][..n - 1];
      PutAllStep(Put(w, fs[0]), fs[1..], n - 1);
    }
  }

  /** `_build_approval_subject`. */
  method BuildSubject(w: World, t: Task, r: Request) returns (s: Result<Subject, Error>)
    requires Constructible(r) && IsGated(r.payload)
    ensures s == SubjectOf(w, t, r)
  {
    hide ReadMatter, RecordText, IntegrationSubject;
    if !r.payload.ChangeIntegrated? {
      return SubjectOf(w, t, r);
    }
    if t.acceptancePath.None? || t.acceptancePath.value !in w.acceptances {
      return Failure(SchemaError);
    }
    var front := ReadFrontMatter(Translated(RecordText(w.acceptances[t.acceptancePath.value])));
    match front {
      case NoMatter => return Failure(SchemaError);
      case BrokenMatter => return Failure(Untyped);
      case Matter(m) =>
        return IntegrationSubject(m, t, r.cas, r.payload.integrated,
                                  r.payload.equivalenceMethod.Some? && r.payload.equivalenceEvidence.Some?);
    }
  }

  /** `_build_approval_subject` and `ApprovalGate.require`. */
  method ObtainGrant(w: World, t: Task, r: Request, env: Env) returns (g: Result<Option<Grant>, Error>)
    requires Constructible(r)
    ensures g == GrantFor(w, t, r, env)
  {
    hide Require, SubjectOf;
    if !IsGated(r.payload) {
      return Success(None);
    }
    var subject := BuildSubject(w, t, r);
    if subject.Failure? {
      return Failure(subject.error);
    }
    var granted := RequireGrant(w.approvals, env.git, CheckRequest(ScopeOf(r.payload), subject.value, env.git.head), env.now);
    if granted.Failure? {
      return Failure(ApprovalRefused(granted.error));
    }
    return Success(Some(granted.value));
  }

  /** The checks up to the first write, in the order of the source. */
  method Decide(w: World, r: Request, env: Env) returns (plan: Plan)
    requires Constructible(r)
    ensures plan == Prepare(w, r, env)
  {
    hide GrantFor, FreshAcceptance, CasHolds, EventOf, OutboxOf, After, Orphans, PathFits, PlanReplay, Constructible;
    if r.cas.taskId !in w.ledger {
      return Refuse(CasConflict);
    }
    var t := w.ledger[r.cas.taskId];
    if !PathFits(t, r) {
      return Refuse(Invalid);
    }
    for i := 0 to |r.guards|
      invariant forall j :: 0 <= j < i ==> !r.guards[j].ApprovalGuard?
    {
      if r.guards[i].ApprovalGuard? {
        return Refuse(Invalid);
      }
    }
    if r.eventId in w.events {
      return PlanReplay(w, t, r, env);
    }
    if Orphans(w, t, r) {
      return Refuse(DuplicateEvidence);
    }
    var mutated := Mutate(t, r.payload, env.Now());
    if mutated.None? {
      return Refuse(CasConflict);
    }
    var acceptance := FreshAcceptance(t, r, env);
    if acceptance.Failure? {
      return Refuse(acceptance.error);
    }
    if !CasHolds(t, r, env) {
      return Refuse(CasConflict);
    }
    var grant := ObtainGrant(w, t, r, env);
    if grant.Failure? {
      return Refuse(grant.error);
    }
    var event := EventOf(t, r, env, r.guards + ApprovalGuards(r, env, grant.value));
    return Write(event, OutboxOf(r, env), acceptance.value, mutated.value, grant.value);
  }

  class Service {
    var ledger: map<TaskId, Task>
    var events: map<EventId, Event>
    var outbox: map<MessageId, Outbox>
    var acceptances: map<AcceptancePath, Acceptance>
    var approvals: Files

    ghost function Contents(): World
      reads this
    {
      World(ledger, events, outbox, acceptances, approvals)
    }

    constructor (tasks: map<TaskId, Task>)
      ensures Contents() == World(tasks, map[], map[], map[], map[])
    {
      ledger, events, outbox, acceptances, approvals := tasks, map[], map[], map[], map[];
    }

    /** One atomic replacement of a file. */
    method Replace(f: FileWrite)
      modifies this
      ensures Contents() == Put(old(Contents()), f)
    {
      match f
      case EventWrite(e) => events := events[e.id := e];
      case OutboxWrite(o) => outbox := outbox[o.message := o];
      case AcceptanceWrite(path, a) => acceptances := acceptances[path := a];
      case LedgerWrite(id, t) => ledger := ledger[id := t];
      case ViewWrite =>
    }

    /** `_write_canonical_files` and the views: the files in their order, until one of them cannot be written. */
    method WriteFiles(files: seq<FileWrite>, budget: nat) returns (complete: bool)
      modifies this
      ensures complete <==> budget >= |files|
      ensures Contents() == PutAll(old(Contents()), files[..if complete then |files| else budget])
    {
      for n := 0 to |files|
        invariant n <= budget
        invariant Contents() == PutAll(old(Contents()), files[..n])
      {
        if n == budget {
          return false;
        }
        PutAllStep(old(Contents()), files, n);
        Replace(files[n]);
      }
      return true;
    }

    /** `_execute_transition_core`, of which only the first `budget` file replacements take place. */
    method Transition(r: Request, env: Env, budget: nat) returns (o: Result<Outcome, Error>)
      requires Constructible(r)
      modifies this
      ensures (Contents(), o) == Execute(old(Contents()), r, env, budget)
    {
      hide GrantFor, FreshAcceptance, CasHolds, EventOf, OutboxOf, After, PlanReplay, PutAll;
      var plan := Decide(World(ledger, events, outbox, acceptances, approvals), r, env);
      if plan.Refuse? {
        return Failure(plan.error);
      }
      if plan.Replay? {
        return Success(plan.outcome);
      }
      var files := Writes(r, plan);
      var complete := WriteFiles(files, budget);
      assert files[..|files|] == files;
      if !complete {
        return Failure(WriteError);
      }
      return Success(OutcomeOf(r, env.Now()));
    }
  }
}
