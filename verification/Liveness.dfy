/** The three-valued liveness decision over an operating system that moves on between two looks at it
    (`dispatch_supervisor_evidence.py`). */
module Liveness {
  import opened Wrappers
  import opened Approvals
  import opened DispatchReceipts

  datatype Answer = Alive | Dead | Unknown

  /** A process table entry; an entry may be unreadable, or refuse to be signalled or opened. */
  datatype Entry = Entry(created: int, terminal: bool, group: nat, readable: bool, open: bool)

  /** The operating system at one instant: its process table, whether it can be listed, its boot identity, and on
      Windows the answer to a query of the named job: a member count, -1 for no such job, or nothing. */
  datatype Snapshot = Snapshot(posix: bool, table: map<nat, Entry>, listable: bool, boot: BootId, job: Option<int>)

  /** The system at each look taken. */
  type Timeline = nat -> Snapshot

  // ---- Single looks ----------------------------------------------------------------------------------------------

  datatype PidState = Absent | Present | Inaccessible | Terminal

  /** `_probe_pid_state`. */
  function StateOf(os: Snapshot, pid: nat): PidState {
    if pid == 0 then Absent
    else if os.posix && pid in os.table && os.table[pid].readable && os.table[pid].terminal then Terminal
    else if pid !in os.table then Absent
    else if !os.table[pid].open then Inaccessible
    else Present
  }

  function CreationOf(os: Snapshot, pid: nat): Option<int> {
    if pid in os.table && os.table[pid].readable then Some(os.table[pid].created) else None
  }

  predicate IsMember(os: Snapshot, pid: nat, group: nat) {
    pid in os.table && os.table[pid].readable && os.table[pid].group == group && !os.table[pid].terminal
  }

  /** One scan of the process table for the group, taken as one look: the system holds still from its first entry to its
      last, and moves on between two scans. */
  function GroupSeen(os: Snapshot, group: nat): bool {
    exists pid :: pid in os.table && IsMember(os, pid, group)
  }

  /** The loop of `_worker_tree_dead` over the listed entries. */
  method ScanGroup(os: Snapshot, entries: seq<nat>, group: nat) returns (seen: bool)
    requires Lists(entries, os.table.Keys)
    ensures seen == GroupSeen(os, group)
  {
    for i := 0 to |entries|
      invariant forall j :: 0 <= j < i ==> !IsMember(os, entries[j], group)
    {
      var entry := entries[i];
      assert entry in os.table;
      if os.table[entry].readable {
        if os.table[entry].group == group && !os.table[entry].terminal {
          return true;
        }
      }
    }
    assert forall pid :: pid in os.table ==> pid in entries;
    return false;
  }

  // ---- Decisions, each taking looks from time t on and ending at a later time ------------------------------------

  /** `_worker_tree_dead`: a member seen once is looked for once more. */
  function TreeDead(os: Timeline, t: nat, group: Option<nat>): (r: (bool, nat))
    ensures r.1 >= t
  {
    if !os(t).posix || group.None? then (false, t)
    else if !os(t).listable then (false, t + 1)
    else if !GroupSeen(os(t), group.value) then (true, t + 1)
    else if !os(t + 1).listable then (false, t + 2)
    else (!GroupSeen(os(t + 1), group.value), t + 2)
  }

  /** A subject whose process is gone: dead, unless it has a tree that is not. */
  function Gone(os: Timeline, t: nat, tree: Option<Option<nat>>): (r: (Answer, nat))
    ensures r.1 >= t
  {
    if tree.None? then (Dead, t)
    else
      var (dead, t') := TreeDead(os, t, tree.value);
      (if dead then Dead else Unknown, t')
  }

  /** `probe_process`; `tree` is the process group to check, for a subject whose tree matters. */
  function Probe(os: Timeline, t: nat, subject: Process, boot: BootId, tree: Option<Option<nat>>, again: bool)
    : (r: (Answer, nat))
    ensures r.1 > t
    decreases again
  {
    var state := StateOf(os(t), subject.pid);
    if state.Absent? then Gone(os, t + 1, tree)
    else if state.Inaccessible? then (Unknown, t + 1)
    else
      var created := CreationOf(os(t + 1), subject.pid);
      if created.None? then
        if again then Probe(os, t + 2, subject, boot, tree, false) else (Unknown, t + 2)
      else if created.value != subject.created then (Unknown, t + 2)
      else if os(t + 2).boot != boot then (Unknown, t + 3)
      else if state.Terminal? then Gone(os, t + 3, tree)
      else (Alive, t + 3)
  }

  /** `_probe_dispatch_job_windows`. */
  function ProbeJob(os: Timeline, t: nat, r: Receipt): (a: (Answer, nat))
    requires r.supervisor.Some?
    ensures a.1 > t
  {
    var (supervisor, t1) := Probe(os, t, r.supervisor.value, r.boot, None, true);
    if supervisor.Alive? then (Alive, t1)
    else
      var job := os(t1).job;
      if job.None? then (Unknown, t1 + 1)
      else if job.value > 0 then (Alive, t1 + 1)
      else if !(job.value == 0 || job.value == -1) then (Unknown, t1 + 1)
      else if !supervisor.Dead? then (Unknown, t1 + 1)
      else if r.worker.None? then (Dead, t1 + 1)
      else
        var (worker, t2) := Probe(os, t1 + 1, r.worker.value, r.boot, None, true);
        (if worker.Dead? then Dead else Unknown, t2)
  }

  /** `probe_dispatch_process_tree`; `windows` is what the probing interpreter runs on. */
  function ProbeDispatch(os: Timeline, t: nat, r: Receipt, windows: bool, again: bool): (a: (Answer, nat))
    ensures a.1 >= t
    decreases again
  {
    if r.supervisor.None? then (Unknown, t)
    else
      var (supervisor, t1) := Probe(os, t, r.supervisor.value, r.boot, None, true);
      if supervisor.Unknown? && again then ProbeDispatch(os, t1, r, windows, false)
      else if supervisor.Alive? then (Alive, t1)
      else if windows then ProbeJob(os, t1, r)
      else if r.worker.Some? then
        var (worker, t2) := Probe(os, t1, r.worker.value, r.boot, Some(r.group), true);
        if worker.Unknown? && again then ProbeDispatch(os, t2, r, windows, false)
        else if worker.Alive? then (Alive, t2)
        else (if supervisor.Dead? && worker.Dead? then Dead else Unknown, t2)
      else (if supervisor.Dead? then Dead else Unknown, t1)
  }

  // ---- What the looks mean ---------------------------------------------------------------------------------------

  /** This very incarnation is running. */
  predicate Running(os: Snapshot, p: Process) {
    p.pid in os.table && os.table[p.pid].created == p.created && !os.table[p.pid].terminal
  }

  predicate GroupRunning(os: Snapshot, group: nat) {
    exists pid :: pid in os.table && os.table[pid].group == group && !os.table[pid].terminal
  }

  /** How the systems the probe looks at behave: nobody has process id 0, the process table entry of a running process
      is readable, and neither a recorded incarnation nor a process group that once stopped running runs again. */
  ghost predicate Lawful(os: Timeline, r: Receipt) {
    && (forall t :: 0 !in os(t).table)
    && (forall t, pid :: pid in os(t).table && !os(t).table[pid].terminal ==> os(t).table[pid].readable)
    && (forall t, u :: t <= u && r.supervisor.Some? && !Running(os(t), r.supervisor.value) ==> !Running(os(u), r.supervisor.value))
    && (forall t, u :: t <= u && r.worker.Some? && !Running(os(t), r.worker.value) ==> !Running(os(u), r.worker.value))
    && (forall t, u :: t <= u && r.group.Some? && !GroupRunning(os(t), r.group.value) ==> !GroupRunning(os(u), r.group.value))
  }

  lemma TreeDeadIsSound(os: Timeline, t: nat, group: nat)
    requires forall t, pid :: pid in os(t).table && !os(t).table[pid].terminal ==> os(t).table[pid].readable
    requires TreeDead(os, t, Some(group)).0
    ensures exists u :: t <= u < TreeDead(os, t, Some(group)).1 && !GroupRunning(os(u), group)
  {
    var u := if GroupSeen(os(t), group) then t + 1 else t;
    assert !GroupSeen(os(u), group);
    forall pid | pid in os(u).table && os(u).table[pid].group == group && !os(u).table[pid].terminal ensures false {
      assert IsMember(os(u), pid, group);
    }
  }

  /** A dead answer rests on a look at which the incarnation was not running; time only moves on. */
  lemma {:induction false} ProbeIsSound(os: Timeline, t: nat, p: Process, boot: BootId, tree: Option<Option<nat>>, again: bool)
    requires forall t :: 0 !in os(t).table
    ensures Probe(os, t, p, boot, tree, again).0.Dead? ==>
      exists u :: t <= u < Probe(os, t, p, boot, tree, again).1 && !Running(os(u), p)
    decreases again
  {
    if again {
      ProbeIsSound(os, t + 2, p, boot, tree, false);
    }
    assert StateOf(os(t), p.pid).Absent? || StateOf(os(t), p.pid).Terminal? ==> !Running(os(t), p);
    hide StateOf, CreationOf, Gone, Running;
  }

  /** A dead answer about a subject with a tree also rests on a look at which its process group was empty. */
  lemma {:induction false} ProbeTreeIsSound(os: Timeline, t: nat, p: Process, boot: BootId, group: Option<nat>, again: bool)
    requires forall t, pid :: pid in os(t).table && !os(t).table[pid].terminal ==> os(t).table[pid].readable
    requires Probe(os, t, p, boot, Some(group), again).0.Dead?
    ensures group.Some?
    ensures exists u :: t <= u < Probe(os, t, p, boot, Some(group), again).1 && !GroupRunning(os(u), group.value)
    decreases again
  {
    var state := StateOf(os(t), p.pid);
    var start := if state.Absent? then t + 1 else t + 3;
    if !state.Absent? && CreationOf(os(t + 1), p.pid).None? {
      ProbeTreeIsSound(os, t + 2, p, boot, group, false);
    } else {
      assert TreeDead(os, start, group).0;
      TreeDeadIsSound(os, start, group.value);
    }
    hide StateOf, CreationOf, TreeDead, GroupRunning;
  }

  /** What a dead answer promises for every later instant. */
  predicate StaysDead(os: Snapshot, r: Receipt, windows: bool) {
    && (r.supervisor.Some? && !Running(os, r.supervisor.value))
    && (r.worker.Some? ==> !Running(os, r.worker.value))
    && (r.worker.Some? && !windows ==> r.group.Some? && !GroupRunning(os, r.group.value))
  }

  lemma NotRunningLater(os: Timeline, r: Receipt, u: nat, v: nat)
    requires Lawful(os, r) && u <= v
    ensures r.supervisor.Some? && !Running(os(u), r.supervisor.value) ==> !Running(os(v), r.supervisor.value)
    ensures r.worker.Some? && !Running(os(u), r.worker.value) ==> !Running(os(v), r.worker.value)
    ensures r.group.Some? && !GroupRunning(os(u), r.group.value) ==> !GroupRunning(os(v), r.group.value)
  {
  }

  lemma JobIsSound(os: Timeline, t: nat, r: Receipt, v: nat)
    requires Lawful(os, r) && r.supervisor.Some? && ProbeJob(os, t, r).0.Dead? && v >= ProbeJob(os, t, r).1
    ensures StaysDead(os(v), r, true)
    ensures exists u :: t <= u < ProbeJob(os, t, r).1 && (os(u).job == Some(0) || os(u).job == Some(-1))
  {
    hide Probe, Running, GroupRunning;
    var t1 := Probe(os, t, r.supervisor.value, r.boot, None, true).1;
    ProbeIsSound(os, t, r.supervisor.value, r.boot, None, true);
    var u :| t <= u < t1 && !Running(os(u), r.supervisor.value);
    if r.worker.Some? {
      ProbeIsSound(os, t1 + 1, r.worker.value, r.boot, None, true);
      var w :| t1 < w < ProbeJob(os, t, r).1 && !Running(os(w), r.worker.value);
      NotRunningLater(os, r, w, v);
    }
    NotRunningLater(os, r, u, v);
    hide Lawful;
    assert os(t1).job == Some(0) || os(t1).job == Some(-1);
  }

  /** Dead is sound, and stays so: from the answer on, the recorded supervisor incarnation is not running, nor is a
      recorded worker, nor (on POSIX) any member of the worker's process group. */
  lemma {:induction false} DeadIsSound(os: Timeline, t: nat, r: Receipt, windows: bool, again: bool, v: nat)
    requires Lawful(os, r) && ProbeDispatch(os, t, r, windows, again).0.Dead?
    requires v >= ProbeDispatch(os, t, r, windows, again).1
    ensures StaysDead(os(v), r, windows)
    decreases again
  {
    var (supervisor, t1) := Probe(os, t, r.supervisor.value, r.boot, None, true);
    ProbeIsSound(os, t, r.supervisor.value, r.boot, None, true);
    if supervisor.Unknown? && again {
      DeadIsSound(os, t1, r, windows, false, v);
    } else if windows {
      JobIsSound(os, t1, r, v);
    } else {
      if r.worker.Some? {
        var (worker, t2) := Probe(os, t1, r.worker.value, r.boot, Some(r.group), true);
        if worker.Unknown? && again {
          DeadIsSound(os, t2, r, windows, false, v);
          return;
        }
        ProbeIsSound(os, t1, r.worker.value, r.boot, Some(r.group), true);
        ProbeTreeIsSound(os, t1, r.worker.value, r.boot, r.group, true);
        var w :| t1 <= w < t2 && !Running(os(w), r.worker.value);
        var g :| t1 <= g < t2 && !GroupRunning(os(g), r.group.value);
        NotRunningLater(os, r, w, v);
        NotRunningLater(os, r, g, v);
      }
      var u :| t <= u < t1 && !Running(os(u), r.supervisor.value);
      NotRunningLater(os, r, u, v);
    }
    hide Lawful, Probe, Running, GroupRunning, ProbeJob;
  }

  // ---- A system that holds still ----------------------------------------------------------------------------------

  /** From this look on. */
  ghost predicate Steady(os: Timeline, s: Snapshot, from: nat) { forall t: nat :: t >= from ==> os(t) == s }

  /** The process is there, readable, and the recorded incarnation of the recorded boot. */
  predicate SameIncarnation(s: Snapshot, p: Process, boot: BootId) {
    CreationOf(s, p.pid) == Some(p.created) && s.boot == boot
  }

  /** Without changes underneath, the answer is exactly this: dead when the process is absent, or ended and the recorded
      one, and its tree is gone; alive when it is the recorded one and has not ended; a process that is unreadable,
      closed, reused or of another boot is unknown. */
  lemma SteadyAnswers(os: Timeline, s: Snapshot, t: nat, p: Process, boot: BootId, tree: Option<Option<nat>>, again: bool)
    requires Steady(os, s, t)
    ensures var state := StateOf(s, p.pid);
      var treeGone := tree.Some? ==> s.posix && s.listable && tree.value.Some? && !GroupSeen(s, tree.value.value);
      && (Probe(os, t, p, boot, tree, again).0.Dead? <==>
            treeGone && (state.Absent? || (state.Terminal? && SameIncarnation(s, p, boot))))
      && (Probe(os, t, p, boot, tree, again).0.Alive? <==> state.Present? && SameIncarnation(s, p, boot))
    decreases again
  {
    if again {
      SteadyAnswers(os, s, t + 2, p, boot, tree, false);
    }
    SteadyGone(os, s, t + 1, tree);
    SteadyGone(os, s, t + 3, tree);
    hide StateOf, CreationOf, Gone, GroupSeen;
    assert os(t) == os(t + 1) == os(t + 2) == s;
  }

  lemma SteadyGone(os: Timeline, s: Snapshot, t: nat, tree: Option<Option<nat>>)
    requires Steady(os, s, t)
    ensures Gone(os, t, tree).0 ==
      if tree.Some? ==> s.posix && s.listable && tree.value.Some? && !GroupSeen(s, tree.value.value) then Dead else Unknown
  {
    hide GroupSeen;
    assert os(t) == os(t + 1) == s;
  }
}
