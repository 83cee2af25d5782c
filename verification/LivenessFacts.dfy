/** What the probes of `dispatch_supervisor_evidence.py` answer on a system that holds still, read off its process table. */
module LivenessFacts {
  import opened Wrappers
  import opened DispatchReceipts
  import opened Liveness

  /** The entry of this process id is the recorded incarnation, on the recorded boot. */
  predicate IsRecorded(s: Snapshot, p: Process, boot: BootId) {
    p.pid != 0 && p.pid in s.table && s.table[p.pid].readable && s.table[p.pid].created == p.created && s.boot == boot
  }

  /** It has ended but is still listed, which only POSIX shows. */
  predicate IsEnded(s: Snapshot, p: Process) { p.pid in s.table && s.posix && s.table[p.pid].readable && s.table[p.pid].terminal }

  predicate SeenAlive(s: Snapshot, p: Process, boot: BootId) {
    IsRecorded(s, p, boot) && !IsEnded(s, p) && s.table[p.pid].open
  }

  predicate SeenGone(s: Snapshot, p: Process, boot: BootId) {
    p.pid == 0 || p.pid !in s.table || (IsRecorded(s, p, boot) && IsEnded(s, p))
  }

  /** Every readable entry of the group has ended. */
  predicate TreeGone(s: Snapshot, group: Option<nat>) {
    && s.posix && s.listable && group.Some?
    && forall pid :: pid in s.table && s.table[pid].readable && s.table[pid].group == group.value ==> s.table[pid].terminal
  }

  lemma ProcessExactly(os: Timeline, s: Snapshot, t: nat, p: Process, boot: BootId, again: bool)
    requires Steady(os, s, t)
    ensures Probe(os, t, p, boot, None, again).0.Alive? <==> SeenAlive(s, p, boot)
    ensures Probe(os, t, p, boot, None, again).0.Dead? <==> SeenGone(s, p, boot)
  {
    SteadyAnswers(os, s, t, p, boot, None, again);
    hide Steady, Probe;
  }

  lemma WorkerExactly(os: Timeline, s: Snapshot, t: nat, p: Process, boot: BootId, group: Option<nat>, again: bool)
    requires Steady(os, s, t)
    ensures Probe(os, t, p, boot, Some(group), again).0.Alive? <==> SeenAlive(s, p, boot)
    ensures Probe(os, t, p, boot, Some(group), again).0.Dead? <==> SeenGone(s, p, boot) && TreeGone(s, group)
  {
    SteadyAnswers(os, s, t, p, boot, Some(group), again);
    hide Steady, Probe;
  }

  // ---- A dispatch ------------------------------------------------------------------------------------------------

  predicate HasSupervisor(r: Receipt) { r.supervisor.Some? }

  /** POSIX: one of the two recorded processes is alive. */
  predicate DispatchAlive(s: Snapshot, r: Receipt)
    requires HasSupervisor(r)
  {
    SeenAlive(s, r.supervisor.value, r.boot) || (r.worker.Some? && SeenAlive(s, r.worker.value, r.boot))
  }

  /** POSIX: the supervisor is gone, and so are the worker and its process group when one was recorded. */
  predicate DispatchGone(s: Snapshot, r: Receipt)
    requires HasSupervisor(r)
  {
    && SeenGone(s, r.supervisor.value, r.boot)
    && (r.worker.Some? ==> SeenGone(s, r.worker.value, r.boot) && TreeGone(s, r.group))
  }

  lemma SteadyLater(os: Timeline, s: Snapshot, t: nat, u: nat)
    requires Steady(os, s, t) && t <= u
    ensures Steady(os, s, u) && os(u) == s
  {
  }

  lemma SeenOnce(s: Snapshot, p: Process, boot: BootId)
    ensures !(SeenAlive(s, p, boot) && SeenGone(s, p, boot))
  {
  }

  /** On POSIX a dispatch is alive exactly if one of its processes is, dead exactly if all of them and the group are gone,
      and unknown otherwise. */
  lemma {:induction false} DispatchExactly(os: Timeline, s: Snapshot, t: nat, r: Receipt, again: bool)
    requires Steady(os, s, t)
    ensures r.supervisor.None? ==> ProbeDispatch(os, t, r, false, again).0 == Unknown
    ensures r.supervisor.Some? ==> (ProbeDispatch(os, t, r, false, again).0 == Alive <==> DispatchAlive(s, r))
    ensures r.supervisor.Some? ==> (ProbeDispatch(os, t, r, false, again).0 == Dead <==> DispatchGone(s, r))
    decreases again
  {
    hide Probe, SeenAlive, SeenGone, TreeGone, Steady;
    if r.supervisor.Some? {
      ProcessExactly(os, s, t, r.supervisor.value, r.boot, true);
      SeenOnce(s, r.supervisor.value, r.boot);
      var (supervisor, t1) := Probe(os, t, r.supervisor.value, r.boot, None, true);
      SteadyLater(os, s, t, t1);
      if supervisor.Unknown? && again {
        DispatchExactly(os, s, t1, r, false);
      } else if r.worker.Some? {
        WorkerExactly(os, s, t1, r.worker.value, r.boot, r.group, true);
        SeenOnce(s, r.worker.value, r.boot);
        var (worker, t2) := Probe(os, t1, r.worker.value, r.boot, Some(r.group), true);
        SteadyLater(os, s, t, t2);
        if worker.Unknown? && again {
          DispatchExactly(os, s, t2, r, false);
        }
      }
    }
  }

  // ---- The job path ----------------------------------------------------------------------------------------------

  /** Windows: the supervisor is alive, or the job has members. */
  predicate JobAlive(s: Snapshot, r: Receipt)
    requires HasSupervisor(r)
  {
    SeenAlive(s, r.supervisor.value, r.boot) || (s.job.Some? && s.job.value > 0)
  }

  /** Windows: supervisor and worker are gone, and the job is empty or does not exist. */
  predicate JobGone(s: Snapshot, r: Receipt)
    requires HasSupervisor(r)
  {
    && SeenGone(s, r.supervisor.value, r.boot) && (s.job == Some(0) || s.job == Some(-1))
    && (r.worker.Some? ==> SeenGone(s, r.worker.value, r.boot))
  }

  lemma JobExactly(os: Timeline, s: Snapshot, t: nat, r: Receipt)
    requires Steady(os, s, t) && r.supervisor.Some?
    ensures ProbeJob(os, t, r).0 == Alive <==> JobAlive(s, r)
    ensures ProbeJob(os, t, r).0 == Dead <==> JobGone(s, r)
  {
    hide Probe, SeenAlive, SeenGone, Steady;
    ProcessExactly(os, s, t, r.supervisor.value, r.boot, true);
    SeenOnce(s, r.supervisor.value, r.boot);
    var (_, t1) := Probe(os, t, r.supervisor.value, r.boot, None, true);
    SteadyLater(os, s, t, t1);
    SteadyLater(os, s, t, t1 + 1);
    if r.worker.Some? {
      ProcessExactly(os, s, t1 + 1, r.worker.value, r.boot, true);
    }
  }

  /** On Windows likewise, with the job in place of the process group; a worker that is seen alive outside of a job that
      is empty leaves the answer unknown. */
  lemma {:induction false} JobDispatchExactly(os: Timeline, s: Snapshot, t: nat, r: Receipt, again: bool)
    requires Steady(os, s, t)
    ensures r.supervisor.None? ==> ProbeDispatch(os, t, r, true, again).0 == Unknown
    ensures r.supervisor.Some? ==> (ProbeDispatch(os, t, r, true, again).0 == Alive <==> JobAlive(s, r))
    ensures r.supervisor.Some? ==> (ProbeDispatch(os, t, r, true, again).0 == Dead <==> JobGone(s, r))
    decreases again
  {
    hide Probe, ProbeJob, SeenAlive, SeenGone, Steady;
    if r.supervisor.Some? {
      ProcessExactly(os, s, t, r.supervisor.value, r.boot, true);
      SeenOnce(s, r.supervisor.value, r.boot);
      var (supervisor, t1) := Probe(os, t, r.supervisor.value, r.boot, None, true);
      SteadyLater(os, s, t, t1);
      if supervisor.Unknown? && again {
        JobDispatchExactly(os, s, t1, r, false);
      } else {
        JobExactly(os, s, t1, r);
      }
    }
  }

  // ---- Second looks ----------------------------------------------------------------------------------------------

  /** A process that is there but cannot be read once is looked at again. */
  lemma ReadAgain(os: Timeline, s: Snapshot, t: nat, p: Process, boot: BootId)
    requires (StateOf(os(t), p.pid) == Present || StateOf(os(t), p.pid) == Terminal) && CreationOf(os(t + 1), p.pid) == None && Steady(os, s, t + 2)
    ensures Probe(os, t, p, boot, None, true).0.Alive? <==> SeenAlive(s, p, boot)
    ensures Probe(os, t, p, boot, None, true).0.Dead? <==> SeenGone(s, p, boot)
  {
    ProcessExactly(os, s, t + 2, p, boot, false);
    hide StateOf, CreationOf, SeenAlive, SeenGone, Steady;
  }

  /** A group of which a member is seen once and none the next time is gone. */
  lemma SeenOnceIsGone(os: Timeline, t: nat, group: nat)
    requires os(t).posix && os(t).listable && GroupSeen(os(t), group)
    requires os(t + 1).listable
    ensures TreeDead(os, t, Some(group)).0 <==> !GroupSeen(os(t + 1), group)
  {
  }

  /** A dispatch whose supervisor could not be told is probed again from the start: from a system that holds still by then
      the answer is as exact as from one that always did. */
  lemma ProbedAgain(os: Timeline, s: Snapshot, t: nat, r: Receipt)
    requires r.supervisor.Some? && Probe(os, t, r.supervisor.value, r.boot, None, true).0.Unknown?
    requires Steady(os, s, Probe(os, t, r.supervisor.value, r.boot, None, true).1)
    ensures ProbeDispatch(os, t, r, false, true).0 == Alive <==> DispatchAlive(s, r)
    ensures ProbeDispatch(os, t, r, false, true).0 == Dead <==> DispatchGone(s, r)
    ensures ProbeDispatch(os, t, r, true, true).0 == Alive <==> JobAlive(s, r)
    ensures ProbeDispatch(os, t, r, true, true).0 == Dead <==> JobGone(s, r)
  {
    var t1 := Probe(os, t, r.supervisor.value, r.boot, None, true).1;
    DispatchExactly(os, s, t1, r, false);
    JobDispatchExactly(os, s, t1, r, false);
    hide Probe, DispatchAlive, DispatchGone, JobAlive, JobGone, Steady;
  }

  /** So is one whose supervisor is gone but whose worker could not be told. */
  lemma ProbedAgainForWorker(os: Timeline, s: Snapshot, t: nat, r: Receipt)
    requires r.supervisor.Some? && Probe(os, t, r.supervisor.value, r.boot, None, true).0.Dead? && r.worker.Some?
    requires var t1 := Probe(os, t, r.supervisor.value, r.boot, None, true).1;
      var (worker, t2) := Probe(os, t1, r.worker.value, r.boot, Some(r.group), true);
      worker.Unknown? && Steady(os, s, t2)
    ensures ProbeDispatch(os, t, r, false, true).0 == Alive <==> DispatchAlive(s, r)
    ensures ProbeDispatch(os, t, r, false, true).0 == Dead <==> DispatchGone(s, r)
  {
    var t1 := Probe(os, t, r.supervisor.value, r.boot, None, true).1;
    DispatchExactly(os, s, Probe(os, t1, r.worker.value, r.boot, Some(r.group), true).1, r, false);
    hide Probe, DispatchAlive, DispatchGone, Steady;
  }
}
