/** When the registry of active executions answers what, and who may remove an entry, over all interleavings. */
module RegistryHistory {
  import opened Wrappers
  import Approvals
  import opened ActiveExecution

  // ---- Single sections --------------------------------------------------------------------------------------------

  /** A registration is new, a repetition of the identical one, or divergent; only a new one changes anything. */
  lemma RegisterExactly(s: State, i: Identity)
    ensures var (s', answer) := Registered(s, i);
      if i.dispatchId !in s.entries then
        answer == Success(false) && s' == State(s.entries[i.dispatchId := Reg(s.issued, i, false)], s.issued + 1, s.pending)
      else s' == s && answer == if s.entries[i.dispatchId].identity == i then Success(true) else Failure(DivergentRegistration)
  {
  }

  /** A completion under the generation of the entry removes it, and no other does anything. */
  lemma CompleteExactly(s: State, d: Approvals.DispatchId, g: GenerationId)
    ensures var (s', done) := Completed(s, d, g);
      if d in s.entries && s.entries[d].identity.generation == g
      then done && s' == State(s.entries - {d}, s.issued, s.pending)
      else !done && s' == s
  {
  }

  /** The command names the task, the revision, the attempt and the generation of the entry. */
  predicate Agrees(c: Command, i: Identity) {
    c.taskId == i.taskId && c.revision == i.revision && c.attempt == i.attempt && c.generation == i.generation
  }

  /** A cancellation begins exactly if the entry of its dispatch is there, agrees with it in all four, and is not being
      cancelled already; it marks this entry and is pending from then on. */
  lemma BeginExactly(s: State, c: Command)
    ensures var (s', answer) := Begun(s, c);
      if c.dispatchId !in s.entries then s' == s && answer == Failure(Error.NotFound)
      else
        var entry := s.entries[c.dispatchId];
        if !Agrees(c, entry.identity) then s' == s && answer == Failure(IdentityDivergence)
        else if entry.cancelling then s' == s && answer == Failure(InProgress)
        else
          && answer == Success(Ticket(entry.serial, c.dispatchId))
          && s' == State(s.entries[c.dispatchId := Reg(entry.serial, entry.identity, true)], s.issued,
                         s.pending + multiset{Ticket(entry.serial, c.dispatchId)})
  {
  }

  /** The end of a cancellation: what was begun is pending no more; the entry it marked is gone, or active again. */
  lemma EndExactly(s: State, t: Ticket, succeeded: bool)
    ensures var (s', answer) := Ended(s, t, succeeded);
      var there := t.dispatchId in s.entries && s.entries[t.dispatchId].serial == t.serial;
      && s'.pending == s.pending - multiset{t} && s'.issued == s.issued
      && s'.entries == (
           if !there then s.entries
           else if succeeded then s.entries - {t.dispatchId}
           else s.entries[t.dispatchId := Reg(t.serial, s.entries[t.dispatchId].identity, false)])
      && answer == if !succeeded then Failure(CallbackFailed) else if there then Success(()) else Failure(Replaced)
  {
  }

  // ---- Runs -------------------------------------------------------------------------------------------------------

  /** The command that names exactly this registration. */
  function CommandFor(i: Identity): Command { Command(i.taskId, i.revision, i.attempt, i.dispatchId, i.generation) }

  /** Every entry was registered, and every one that is being cancelled is so by a command that names it exactly. */
  predicate Accounted(s: State, past: seq<Step>) {
    forall d :: d in s.entries ==>
      && s.entries[d].identity.dispatchId == d && Register(s.entries[d].identity) in past
      && (s.entries[d].cancelling ==> Begin(CommandFor(s.entries[d].identity)) in past)
  }

  lemma NextAccounted(s: State, past: seq<Step>, step: Step)
    requires Accounted(s, past)
    ensures Accounted(Next(s, step), past + [step])
  {
    assert step in past + [step] && forall p :: p in past ==> p in past + [step];
    match step
    case Register(i) => RegisterExactly(s, i);
    case Complete(d, g) => CompleteExactly(s, d, g);
    case Begin(c) => BeginExactly(s, c);
    case End(t, succeeded) => EndExactly(s, t, succeeded);
    hide Registered, Completed, Begun, Ended;
  }

  lemma {:induction false} RunAccounted(s: State, past: seq<Step>, steps: seq<Step>)
    requires Accounted(s, past) && Inv(s)
    ensures Accounted(Run(s, steps), past + steps) && Inv(Run(s, steps))
    decreases |steps|
  {
    hide Accounted, Next, Inv;
    if steps == [] {
      assert past + steps == past;
    } else {
      NextAccounted(s, past, steps[0]);
      NextKeepsInv(s, steps[0]);
      RunAccounted(Next(s, steps[0]), past + [steps[0]], steps[1..]);
      assert past + [steps[0]] + steps[1..] == past + steps;
    }
  }

  /** Under every interleaving of callers, an entry disappears only by a completion under its own generation, or by the
      successful end of a cancellation of this very registration whose command named its task, revision, attempt, dispatch
      and generation. */
  lemma WhoRemoves(steps: seq<Step>, step: Step, d: Approvals.DispatchId)
    requires var s := Run(State(map[], 0, multiset{}), steps); d in s.entries && d !in Next(s, step).entries
    ensures var entry := Run(State(map[], 0, multiset{}), steps).entries[d];
      || step == Complete(d, entry.identity.generation)
      || (step == End(Ticket(entry.serial, d), true) && entry.cancelling && Begin(CommandFor(entry.identity)) in steps)
  {
    var empty: seq<Step> := [];
    EmptyInv();
    RunAccounted(State(map[], 0, multiset{}), empty, steps);
    assert empty + steps == steps;
    var s := Run(State(map[], 0, multiset{}), steps);
    Removal(s, step, d);
  }

  lemma Removal(s: State, step: Step, d: Approvals.DispatchId)
    requires Inv(s) && d in s.entries && d !in Next(s, step).entries
    ensures || step == Complete(d, s.entries[d].identity.generation)
            || (step == End(Ticket(s.entries[d].serial, d), true) && s.entries[d].cancelling)
  {
    assert EntryOk(s, d);
    match step
    case Register(i) => RegisterExactly(s, i);
    case Complete(e, g) => CompleteExactly(s, e, g);
    case Begin(c) => BeginExactly(s, c);
    case End(t, succeeded) => EndExactly(s, t, succeeded);
    hide Registered, Completed, Begun, Ended;
  }

  /** And what it is about never changes while it is there: an entry that is there before and after a section has the same
      identity and serial number, unless it was new. */
  lemma EntriesStay(s: State, step: Step, d: Approvals.DispatchId)
    requires d in s.entries && d in Next(s, step).entries
    ensures Next(s, step).entries[d].identity == s.entries[d].identity
    ensures Next(s, step).entries[d].serial == s.entries[d].serial
  {
  }
}
