/** The active-execution registry: its callers interleave, and a cancellation releases the lock while its callback runs
    (`dockyard_active_execution.py`). */
module ActiveExecution {
  import opened Wrappers
  import opened Approvals

  type GenerationId(==, !new)
  type Digest(==, !new)

  datatype Identity = Identity(
    taskId: TaskId, revision: int, attempt: int, dispatchId: DispatchId, generation: GenerationId, digest: Digest)

  datatype Command = Command(taskId: TaskId, revision: int, attempt: int, dispatchId: DispatchId, generation: GenerationId)

  datatype Error = NotFound | DivergentRegistration | IdentityDivergence | InProgress | Replaced | CallbackFailed

  // ---- The state between critical sections ------------------------------------------------------------------------

  /** A registration; the serial number tells apart objects that are otherwise equal. */
  datatype Reg = Reg(serial: nat, identity: Identity, cancelling: bool)

  /** A cancellation between its two critical sections, and the registration object it holds on to. */
  datatype Ticket = Ticket(serial: nat, dispatchId: DispatchId)

  datatype State = State(entries: map<DispatchId, Reg>, issued: nat, pending: multiset<Ticket>)

  predicate Matches(c: Command, i: Identity) {
    c.taskId == i.taskId && c.revision == i.revision && c.attempt == i.attempt && c.generation == i.generation
  }

  /** One critical section. */
  datatype Step =
    | Register(identity: Identity)
    | Complete(dispatchId: DispatchId, generation: GenerationId)
    | Begin(command: Command)
    | End(ticket: Ticket, succeeded: bool)

  function Registered(s: State, i: Identity): (State, Result<bool, Error>) {
    if i.dispatchId in s.entries then
      (s, if s.entries[i.dispatchId].identity == i then Success(true) else Failure(DivergentRegistration))
    else (s.(entries := s.entries[i.dispatchId := Reg(s.issued, i, false)], issued := s.issued + 1), Success(false))
  }

  function Completed(s: State, d: DispatchId, g: GenerationId): (State, bool) {
    if d !in s.entries || s.entries[d].identity.generation != g then (s, false)
    else (s.(entries := s.entries - {d}), true)
  }

  /** The first section of `cancel`. */
  function Begun(s: State, c: Command): (State, Result<Ticket, Error>) {
    var d := c.dispatchId;
    if d !in s.entries then (s, Failure(Error.NotFound))
    else if !Matches(c, s.entries[d].identity) then (s, Failure(IdentityDivergence))
    else if s.entries[d].cancelling then (s, Failure(InProgress))
    else
      var ticket := Ticket(s.entries[d].serial, d);
      (s.(entries := s.entries[d := s.entries[d].(cancelling := true)], pending := s.pending + multiset{ticket}),
       Success(ticket))
  }

  predicate Holds(s: State, t: Ticket) { t.dispatchId in s.entries && s.entries[t.dispatchId].serial == t.serial }

  /** The last section of `cancel`, after the callback succeeded or failed. */
  function Ended(s: State, t: Ticket, succeeded: bool): (State, Result<(), Error>) {
    var s' := s.(pending := s.pending - multiset{t});
    if !succeeded then
      (if Holds(s, t) then s'.(entries := s.entries[t.dispatchId := s.entries[t.dispatchId].(cancelling := false)]) else s',
       Failure(CallbackFailed))
    else if !Holds(s, t) then (s', Failure(Replaced))
    else (s'.(entries := s.entries - {t.dispatchId}), Success(()))
  }

  function Next(s: State, step: Step): State {
    match step
    case Register(i) => Registered(s, i).0
    case Complete(d, g) => Completed(s, d, g).0
    case Begin(c) => Begun(s, c).0
    case End(t, succeeded) => if t in s.pending then Ended(s, t, succeeded).0 else s
  }

  function Run(s: State, steps: seq<Step>): State
    decreases |steps|
  {
    if steps == [] then s else Run(Next(s, steps[0]), steps[1..])
  }

  // ---- One winner --------------------------------------------------------------------------------------------------

  predicate EntryOk(s: State, d: DispatchId)
    requires d in s.entries
  {
    && s.entries[d].identity.dispatchId == d && s.entries[d].serial < s.issued
    && (s.entries[d].cancelling <==> Ticket(s.entries[d].serial, d) in s.pending)
  }

  ghost predicate Inv(s: State) {
    && (forall d :: d in s.entries ==> EntryOk(s, d))
    && (forall d, e :: d in s.entries && e in s.entries && d != e ==> s.entries[d].serial != s.entries[e].serial)
    && (forall t :: t in s.pending ==> s.pending[t] == 1 && t.serial < s.issued)
  }

  lemma NextKeepsInv(s: State, step: Step)
    requires Inv(s)
    ensures Inv(Next(s, step))
  {
    match step
    case Register(i) => RegisterKeeps(s, i);
    case Complete(d, g) => CompleteKeeps(s, d, g);
    case Begin(c) => BeginKeeps(s, c);
    case End(t, succeeded) =>
      if t in s.pending { EndKeeps(s, t, succeeded); }
      hide Ended, Inv;
  }

  lemma RegisterKeeps(s: State, i: Identity)
    requires Inv(s)
    ensures Inv(Registered(s, i).0)
  {
    var s' := Registered(s, i).0;
    forall d | d in s'.entries ensures EntryOk(s', d) {
      if d in s.entries { assert EntryOk(s, d); }
    }
    assert forall d :: d in s.entries ==> EntryOk(s, d);
    hide EntryOk;
    assert forall d :: d in s.entries ==> s.entries[d].serial < s.issued by { Serials(s); }
  }

  lemma Serials(s: State)
    requires Inv(s)
    ensures forall d :: d in s.entries ==> s.entries[d].serial < s.issued
  {
    forall d | d in s.entries ensures s.entries[d].serial < s.issued { assert EntryOk(s, d); }
  }

  lemma CompleteKeeps(s: State, d: DispatchId, g: GenerationId)
    requires Inv(s)
    ensures Inv(Completed(s, d, g).0)
  {
    var s' := Completed(s, d, g).0;
    forall e | e in s'.entries ensures EntryOk(s', e) { assert EntryOk(s, e); }
    hide EntryOk;
  }

  lemma BeginKeeps(s: State, c: Command)
    requires Inv(s)
    ensures Inv(Begun(s, c).0)
  {
    var s' := Begun(s, c).0;
    forall e | e in s'.entries ensures EntryOk(s', e) { assert EntryOk(s, e); }
    hide EntryOk;
  }

  lemma EndKeeps(s: State, t: Ticket, succeeded: bool)
    requires Inv(s) && t in s.pending
    ensures Inv(Ended(s, t, succeeded).0)
  {
    var s' := Ended(s, t, succeeded).0;
    forall e | e in s'.entries ensures EntryOk(s', e) { assert EntryOk(s, e); }
    hide EntryOk;
  }

  /** Under every interleaving, a present entry is being cancelled exactly when one and only one cancellation of that
      very registration is between its sections. */
  lemma {:induction false} OneWinner(s: State, steps: seq<Step>, d: DispatchId)
    requires Inv(s) && d in Run(s, steps).entries
    ensures var r := Run(s, steps);
      var t := Ticket(r.entries[d].serial, d);
      r.pending[t] <= 1 && (r.entries[d].cancelling <==> r.pending[t] == 1)
    decreases |steps|
  {
    if steps == [] {
      assert EntryOk(s, d);
    } else {
      NextKeepsInv(s, steps[0]);
      OneWinner(Next(s, steps[0]), steps[1..], d);
    }
  }

  lemma EmptyInv()
    ensures Inv(State(map[], 0, multiset{}))
  {
  }

  /** Registrations are told apart for good: from a ticket on, either its own registration is still there, or it never
      comes back, however often the dispatch is registered again. */
  lemma {:induction false} NeverReturns(s: State, t: Ticket, steps: seq<Step>)
    requires Inv(s) && t.serial < s.issued && !Holds(s, t)
    ensures !Holds(Run(s, steps), t)
    decreases |steps|
  {
    if steps != [] {
      NextKeepsInv(s, steps[0]);
      StaysAway(s, t, steps[0]);
      NeverReturns(Next(s, steps[0]), t, steps[1..]);
      hide Inv, Next, Holds;
    }
  }

  lemma StaysAway(s: State, t: Ticket, step: Step)
    requires t.serial < s.issued && !Holds(s, t)
    ensures !Holds(Next(s, step), t) && s.issued <= Next(s, step).issued
  {
  }

  /** A stale finisher alters no entry: once its registration has been completed or replaced, whatever the other callers
      do and however its callback ends, the last section leaves all entries as they are and reports the failure. */
  lemma StaleFinisherHarmless(s: State, t: Ticket, steps: seq<Step>, succeeded: bool)
    requires Inv(s) && t.serial < s.issued && !Holds(s, t)
    ensures var r := Run(s, steps);
      && Ended(r, t, succeeded).0.entries == r.entries
      && Ended(r, t, succeeded).1 == Failure(if succeeded then Replaced else CallbackFailed)
  {
    NeverReturns(s, t, steps);
  }

  /** A finisher whose registration is still there removes exactly that entry, or makes exactly it active again. */
  lemma OwnFinisher(s: State, t: Ticket, succeeded: bool)
    requires Inv(s) && t in s.pending && Holds(s, t)
    ensures s.entries[t.dispatchId].cancelling
    ensures var (s', answer) := Ended(s, t, succeeded);
      && (forall e :: e != t.dispatchId ==> (e in s'.entries <==> e in s.entries))
      && (forall e :: e != t.dispatchId && e in s.entries ==> s'.entries[e] == s.entries[e])
      && (if succeeded then t.dispatchId !in s'.entries && answer.Success?
          else t.dispatchId in s'.entries && s'.entries[t.dispatchId] == s.entries[t.dispatchId].(cancelling := false))
  {
    assert EntryOk(s, t.dispatchId);
  }

  // ---- The registry object ------------------------------------------------------------------------------------------

  class Registration {
    ghost const serial: nat
    const identity: Identity
    var cancelling: bool

    constructor (ghost serial: nat, identity: Identity)
      ensures this.serial == serial && this.identity == identity && !cancelling
    {
      this.serial := serial;
      this.identity, this.cancelling := identity, false;
    }

    ghost function Value(): Reg
      reads this
    {
      Reg(serial, identity, cancelling)
    }
  }

  class Registry {
    var entries: map<DispatchId, Registration>
    /** Every registration ever made, by serial number, and the cancellations between their sections. */
    ghost var made: seq<Registration>
    ghost var pending: multiset<Ticket>

    ghost function Contents(): State
      reads this, entries.Values
    {
      State(map d | d in entries :: entries[d].Value(), |made|, pending)
    }

    ghost predicate Made(r: Registration)
      reads this
    {
      r.serial < |made| && made[r.serial] == r
    }

    ghost predicate Valid()
      reads this, entries.Values
    {
      && Inv(Contents())
      && (forall k :: 0 <= k < |made| ==> made[k].serial == k)
      && (forall d :: d in entries ==> Made(entries[d]))
    }

    constructor ()
      ensures Valid() && Contents() == State(map[], 0, multiset{})
    {
      entries := map[];
      made, pending := [], multiset{};
    }

    /** `register`, all of it under the lock. */
    method RegisterIdentity(i: Identity) returns (replayed: Result<bool, Error>)
      requires Valid()
      modifies this
      ensures Valid() && (Contents(), replayed) == Registered(old(Contents()), i) && old(made) <= made
    {
      hide Inv;
      ghost var s := Contents();
      NextKeepsInv(s, Register(i));
      if i.dispatchId in entries {
        var existing := entries[i.dispatchId];
        if existing.identity == i {
          return Success(true);
        }
        return Failure(DivergentRegistration);
      }
      var registration := new Registration(|made|, i);
      entries := entries[i.dispatchId := registration];
      made := made + [registration];
      assert Contents().entries == Registered(s, i).0.entries;
      return Success(false);
    }

    /** `complete`, all of it under the lock. */
    method CompleteDispatch(d: DispatchId, g: GenerationId) returns (done: bool)
      requires Valid()
      modifies this
      ensures Valid() && (Contents(), done) == Completed(old(Contents()), d, g) && made == old(made)
    {
      hide Inv;
      ghost var s := Contents();
      NextKeepsInv(s, Complete(d, g));
      if d !in entries || entries[d].identity.generation != g {
        return false;
      }
      entries := entries - {d};
      assert Contents().entries == Completed(s, d, g).0.entries;
      return true;
    }

    /** The first section of `cancel`, which hands out the registration object. */
    method BeginCancel(c: Command) returns (r: Result<Registration, Error>)
      requires Valid()
      modifies this, entries.Values
      ensures Valid() && Contents() == Begun(old(Contents()), c).0 && made == old(made)
      ensures var begun := Begun(old(Contents()), c).1;
              if begun.Failure? then r == Failure(begun.error)
              else r.Success? && Made(r.value) && begun.value == Ticket(r.value.serial, c.dispatchId)
    {
      hide Inv;
      ghost var s := Contents();
      NextKeepsInv(s, Begin(c));
      if c.dispatchId !in entries {
        return Failure(Error.NotFound);
      }
      var registration := entries[c.dispatchId];
      if !Matches(c, registration.identity) {
        return Failure(IdentityDivergence);
      }
      if registration.cancelling {
        return Failure(InProgress);
      }
      OneEntry(c.dispatchId);
      registration.cancelling := true;
      pending := pending + multiset{Ticket(registration.serial, c.dispatchId)};
      assert Contents().entries == Begun(s, c).0.entries;
      return Success(registration);
    }

    lemma OneEntry(d: DispatchId)
      requires Valid() && d in entries
      ensures forall e :: e in entries && e != d ==> entries[e] != entries[d]
    {
      forall e | e in entries && e != d ensures entries[e] != entries[d] {
        assert Contents().entries[e].serial != Contents().entries[d].serial;
      }
    }

    /** Whether an entry is the very object that a cancellation holds is the question its serial number answers. */
    lemma SameObject(d: DispatchId, registration: Registration)
      requires Valid() && Made(registration)
      ensures Holds(Contents(), Ticket(registration.serial, d)) <==> d in entries && entries[d] == registration
    {
      hide Inv;
      assert d in entries ==> Made(entries[d]);
    }

    /** The section after a failed callback. The caller still has the registration it was handed; if the entry is that
        very object, it becomes active again. */
    method FailCancel(d: DispatchId, registration: Registration) returns (r: Result<(), Error>)
      requires Valid() && Made(registration) && Ticket(registration.serial, d) in pending
      modifies this, entries.Values
      ensures Valid() && made == old(made)
      ensures (Contents(), r) == Ended(old(Contents()), Ticket(registration.serial, d), false)
    {
      hide Inv;
      ghost var s := Contents();
      ghost var ticket := Ticket(registration.serial, d);
      NextKeepsInv(s, End(ticket, false));
      SameObject(d, registration);
      if d in entries && entries[d] == registration {
        OneEntry(d);
        entries[d].cancelling := false;
      }
      pending := pending - multiset{ticket};
      assert Contents().entries == Ended(s, ticket, false).0.entries;
      return Failure(CallbackFailed);
    }

    /** The section after a successful callback: the entry goes, if it is still the object the caller was handed. */
    method FinishCancel(d: DispatchId, registration: Registration) returns (r: Result<(), Error>)
      requires Valid() && Made(registration) && Ticket(registration.serial, d) in pending
      modifies this
      ensures Valid() && made == old(made)
      ensures (Contents(), r) == Ended(old(Contents()), Ticket(registration.serial, d), true)
    {
      hide Inv;
      ghost var s := Contents();
      ghost var ticket := Ticket(registration.serial, d);
      NextKeepsInv(s, End(ticket, true));
      SameObject(d, registration);
      pending := pending - multiset{ticket};
      if d !in entries || entries[d] != registration {
        assert Contents().entries == s.entries;
        return Failure(Replaced);
      }
      entries := entries - {d};
      assert Contents().entries == Ended(s, ticket, true).0.entries;
      return Success(());
    }
  }
}
