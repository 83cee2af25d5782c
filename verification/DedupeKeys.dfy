/** The printed dedupe key of a dispatch message (`_derive_dedupe_key`). */
module DedupeKeys {
  import opened Wrappers
  import opened Approvals
  import opened ApprovalRuns
  import opened Decimal
  import opened Ledger
  import opened Events
  import opened Transition
  import opened History
  import opened ControlPlaneRuns
  import opened ControlPlaneSafety
  import opened ControlPlaneTheorems

  /** `{task_id}/r{revision}/a{attempt}/{dispatch_id}/{message_type}` */
  function Key(key: DedupeKey, messageType: string): string
    requires key.revision >= 0 && key.attempt >= 0
  {
    key.taskId.text + "/r" + Print(key.revision) + "/a" + Print(key.attempt) + "/" + key.dispatchId.text + "/" + messageType
  }

  /** Task ids have no slash (`TC-[0-9]{3,}`). */
  predicate NoSlash(id: TaskId) { '/' !in id.text }

  lemma {:induction false} SplitAtSlash(a: string, x: string, b: string, y: string)
    requires '/' !in a && '/' !in b && a + "/" + x == b + "/" + y
    ensures a == b && x == y
  {
    if a != "" && b != "" {
      assert (a + "/" + x)[0] == a[0] && (b + "/" + y)[0] == b[0];
      assert (a + "/" + x)[1..] == a[1..] + "/" + x && (b + "/" + y)[1..] == b[1..] + "/" + y;
      SplitAtSlash(a[1..], x, b[1..], y);
      assert a == [a[0]] + a[1..] && b == [b[0]] + b[1..];
    } else {
      assert (a + "/" + x)[|a|] == '/' && (b + "/" + y)[|b|] == '/';
      assert (a + "/" + x)[1..] == x && (b + "/" + y)[1..] == y;
    }
  }

  lemma NumeralHasNoSlash(n: nat)
    ensures '/' !in Print(n)
  {
    var s := Print(n);
    forall i | 0 <= i < |s| ensures s[i] != '/' {
      assert IsDigit(s[i]);
    }
  }

  lemma SamePrefix(p: string, x: string, y: string)
    requires p + x == p + y
    ensures x == y
  {
    assert (p + x)[|p|..] == x && (p + y)[|p|..] == y;
  }

  lemma SameSuffix(x: string, y: string, p: string)
    requires x + p == y + p
    ensures x == y
  {
    assert (x + p)[..|x|] == x && (y + p)[..|y|] == y;
  }

  /** Different keys are printed differently, whatever characters the dispatch ids contain. */
  lemma KeyInjective(k: DedupeKey, l: DedupeKey, messageType: string)
    requires NoSlash(k.taskId) && NoSlash(l.taskId) && k.revision >= 0 && k.attempt >= 0 && l.revision >= 0 && l.attempt >= 0
    requires Key(k, messageType) == Key(l, messageType)
    ensures k == l
  {
    var kd, ld := k.dispatchId.text + "/" + messageType, l.dispatchId.text + "/" + messageType;
    var ka, la := "a" + Print(k.attempt) + "/" + kd, "a" + Print(l.attempt) + "/" + ld;
    var kr, lr := "r" + Print(k.revision) + "/" + ka, "r" + Print(l.revision) + "/" + la;
    Regroup(k, messageType);
    Regroup(l, messageType);
    hide Key, Print;
    SplitAtSlash(k.taskId.text, kr, l.taskId.text, lr);
    Field('r', k.revision, ka, l.revision, la);
    Field('a', k.attempt, kd, l.attempt, ld);
    assert kd == k.dispatchId.text + ("/" + messageType);
    assert ld == l.dispatchId.text + ("/" + messageType);
    SameSuffix(k.dispatchId.text, l.dispatchId.text, "/" + messageType);
  }

  lemma Regroup(k: DedupeKey, messageType: string)
    requires k.revision >= 0 && k.attempt >= 0
    ensures Key(k, messageType)
         == k.taskId.text + "/" + ("r" + Print(k.revision) + "/"
              + ("a" + Print(k.attempt) + "/" + (k.dispatchId.text + "/" + messageType)))
  {
    hide Print;
  }

  lemma Field(tag: char, m: nat, x: string, n: nat, y: string)
    requires [tag] + Print(m) + "/" + x == [tag] + Print(n) + "/" + y
    ensures m == n && x == y
  {
    hide Print;
    assert [tag] + Print(m) + "/" + x == [tag] + (Print(m) + "/" + x);
    assert [tag] + Print(n) + "/" + y == [tag] + (Print(n) + "/" + y);
    SamePrefix([tag], Print(m) + "/" + x, Print(n) + "/" + y);
    NumeralHasNoSlash(m);
    NumeralHasNoSlash(n);
    SplitAtSlash(Print(m), x, Print(n), y);
    PrintInjective(m, n);
  }

  /** No two committed dispatches carry the same printed key, across all tasks and runs. */
  lemma CommittedKeysDiffer(tasks: Tasks, steps: seq<Step>, i: nat, j: nat, messageType: string)
    requires AllPossible(steps) && (forall id :: id in tasks ==> NoSlash(id)) && i < j < |Reached(tasks, steps).log|
    requires Reached(tasks, steps).log[i].outbox.Some? && Reached(tasks, steps).log[j].outbox.Some?
    ensures var k, l := Reached(tasks, steps).log[i].outbox.value.key, Reached(tasks, steps).log[j].outbox.value.key;
      && k.revision >= 0 && k.attempt >= 0 && l.revision >= 0 && l.attempt >= 0
      && Key(k, messageType) != Key(l, messageType)
  {
    hide Reached, LegitLog, Key, Sound, AllDurable, LedgerAfter;
    ReachedLog(tasks, steps);
    LoggedKeysDiffer(tasks, Reached(tasks, steps).log, i, j, messageType);
  }

  lemma LoggedKeysDiffer(start: Tasks, log: seq<Entry>, i: nat, j: nat, messageType: string)
    requires LegitLog(start, log) && (forall id :: id in start ==> NoSlash(id)) && i < j < |log|
    requires log[i].outbox.Some? && log[j].outbox.Some?
    ensures var k, l := log[i].outbox.value.key, log[j].outbox.value.key;
      && k.revision >= 0 && k.attempt >= 0 && l.revision >= 0 && l.attempt >= 0
      && Key(k, messageType) != Key(l, messageType)
  {
    hide Legit, LegitLog, LedgerAfter, Key, NoSlash;
    PrefixLegit(start, log, i);
    PrefixLegit(start, log, j);
    LedgerKeys(start, log[..i]);
    LedgerKeys(start, log[..j]);
    DispatchKey(LedgerAfter(start, log[..i])[log[i].Task()], log[i]);
    DispatchKey(LedgerAfter(start, log[..j])[log[j].Task()], log[j]);
    var k, l := log[i].outbox.value.key, log[j].outbox.value.key;
    if Key(k, messageType) == Key(l, messageType) {
      KeyInjective(k, l, messageType);
      AttemptOnce(start, log, i, j);
    }
  }

  lemma DispatchKey(t: Task, c: Entry)
    requires Legit(t, c) && c.outbox.Some?
    ensures c.event.kind.Dispatching? && c.outbox.value.key.taskId == c.Task()
    ensures Some(c.outbox.value.key.attempt) == c.event.attempt
    ensures c.outbox.value.key.revision >= 1 && c.outbox.value.key.attempt >= 1
  {
  }
}
