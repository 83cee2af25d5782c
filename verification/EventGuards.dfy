/** How the printed guards of an event read back: one guard as it was, several as one that none of them was. */
module EventGuards {
  import opened Wrappers
  import opened Texts
  import opened Approvals
  import opened Ledger
  import opened Events
  import opened EventReader
  import opened EventLines
  import LineCodec
  import Decimal
  import ScalarCodec

  // ---- The texts of guards ----------------------------------------------------------------------------------------

  predicate OneLine(s: string) { '\n' !in s }

  predicate IsApprovalText(s: string) { "APR-" <= s && OneLine(s) && '\0' !in s && '\r' !in s }

  /** A time in any spelling without white space around it. */
  predicate IsTimeSpelling(s: string) { s != "" && OneLine(s) && Stripped(s) && !IsDigits(s) }

  /** What the constructors enforce of the texts of a guard, as far as it matters here. */
  predicate SpelledGuard(g: Guard) {
    match g
    case ApprovalGuard(_, approvalId, _, evidence) => IsApprovalText(approvalId.text) && IsEventIdText(evidence.text)
    case OtherGuard(name, inputs, result, checked, reference) =>
      && OneLine(name) && OneLine(result) && OneLine(reference) && IsTimeSpelling(checked)
      && forall input :: input in inputs ==> OneLine(input.key) && (input.value.TextValue? ==> OneLine(input.value.text))
  }

  predicate GuardLine(line: string) { OneLine(line) && IsIndented(line) && !IsBlank(line) }

  predicate GuardBlock(lines: seq<string>) { forall line :: line in lines ==> GuardLine(line) }

  predicate IsFieldName(key: string) { IsNameText(key) && 'a' <= key[0] && key[|key| - 1] != '_' }

  lemma EntryIsLine(key: string, x: string)
    requires IsFieldName(key) && OneLine(x)
    ensures GuardLine(Indented(Entry(key, x))) && GuardLine(Indented(Indented(Entry(key, x))))
  {
    NameIsEntry(key);
    var one, two := Indented(Entry(key, x)), Indented(Indented(Entry(key, x)));
    assert one[4] == key[0] && two[8] == key[0];
    StripStops(one, 4);
    StripStops(two, 8);
    hide Strip, IsSpace, IsNameText, Stripped;
  }

  lemma NestedIsLine(key: string, x: string)
    requires IsFieldName(key) && GuardLine(x)
    ensures GuardLine(Indented(Entry(key, x)))
  {
    EntryIsLine(key, x);
    hide IsBlank;
  }

  lemma FieldNames()
    ensures IsFieldName("checked_at") && IsFieldName("guard") && IsFieldName("result")
  {
  }

  lemma MoreFieldNames()
    ensures IsFieldName("evidence_ref") && IsFieldName("inputs") && IsFieldName("key") && IsFieldName("value")
  {
  }

  lemma EmitsOneLine(s: string)
    requires OneLine(s)
    ensures OneLine(Emit(s))
  {
    EmittedChars(s, '\n');
  }

  lemma NumberIsOneLine(n: int)
    ensures OneLine(PrintInt(n))
  {
    var s := PrintInt(n);
    forall i | 0 <= i < |s| ensures s[i] != '\n' {
      assert s[i] == '-' || Decimal.IsDigit(s[i]);
    }
  }


  lemma ValueIsOneLine(v: GuardValue)
    requires v.TextValue? ==> OneLine(v.text)
    ensures OneLine(ValueText(v))
  {
    match v
    case NullValue =>
    case FlagValue(_) =>
    case NumberValue(n) => NumberIsOneLine(n);
    case TextValue(text) => EmitsOneLine(text);
    hide PrintInt, Emit;
  }

  lemma {:induction false} PairsAreLines(inputs: seq<GuardInput>)
    requires forall input :: input in inputs ==> OneLine(input.key) && (input.value.TextValue? ==> OneLine(input.value.text))
    ensures GuardBlock(PairLines(inputs))
  {
    if inputs != [] {
      MoreFieldNames();
      hide IsFieldName, GuardLine, Emit, ValueText, Entry, Indented;
      EmitsOneLine(inputs[0].key);
      ValueIsOneLine(inputs[0].value);
      EntryIsLine("key", Emit(inputs[0].key));
      EntryIsLine("value", ValueText(inputs[0].value));
      PairsAreLines(inputs[1..]);
    }
  }

  lemma InputsAreLines(inputs: seq<GuardInput>)
    requires forall input :: input in inputs ==> OneLine(input.key) && (input.value.TextValue? ==> OneLine(input.value.text))
    ensures GuardBlock(InputLines(inputs))
  {
    PairsAreLines(inputs);
    MoreFieldNames();
    hide IsFieldName, GuardLine, PairLines, Entry, Indented;
    if inputs == [] {
      EntryIsLine("inputs", "[]");
    } else {
      assert PairLines(inputs)[0] in PairLines(inputs);
      NestedIsLine("inputs", PairLines(inputs)[0]);
    }
  }

  lemma PlainGuardIsLines(name: string, inputs: seq<GuardInput>, result: string, checked: string, reference: string)
    requires OneLine(name) && OneLine(result) && OneLine(reference) && OneLine(checked)
    requires forall input :: input in inputs ==> OneLine(input.key) && (input.value.TextValue? ==> OneLine(input.value.text))
    ensures GuardBlock(PlainGuardLines(name, inputs, result, checked, reference))
  {
    FieldNames();
    MoreFieldNames();
    InputsAreLines(inputs);
    EmitsOneLine(name);
    EmitsOneLine(result);
    EmitsOneLine(checked);
    EmitsOneLine(reference);
    hide IsFieldName, GuardLine, Emit, InputLines, Entry, Indented, OneLine;
    EntryIsLine("checked_at", Emit(checked));
    EntryIsLine("evidence_ref", Emit(reference));
    EntryIsLine("guard", Emit(name));
    EntryIsLine("result", Emit(result));
  }

  lemma PathIsOneLine(e: EventId)
    requires IsEventIdText(e.text)
    ensures OneLine(PathText(e))
  {
  }

  lemma TimeIsOneLine(s: string)
    requires IsTimeText(s)
    ensures OneLine(s)
  {
  }

  lemma ApprovalInputsAreOneLine(scope: Scope, approvalId: ApprovalId)
    requires OneLine(approvalId.text)
    ensures forall input :: input in ApprovalInputs(scope, approvalId) ==>
              OneLine(input.key) && (input.value.TextValue? ==> OneLine(input.value.text))
  {
  }

  lemma GuardIsLines(g: Guard)
    requires SpelledGuard(g)
    ensures GuardBlock(GuardLines(g)) && |GuardLines(g)| > 0
  {
    hide GuardBlock, TimeText, IsTimeText, InputLines, PathText, OneLine, ApprovalInputs;
    match g
    case ApprovalGuard(scope, approvalId, checkedAt, evidence) =>
      PathIsOneLine(evidence);
      TimeIsOneLine(TimeText(checkedAt));
      ApprovalInputsAreOneLine(scope, approvalId);
      assert OneLine("approval_gate") && OneLine("passed") by { ApprovalWords(); }
      PlainGuardIsLines("approval_gate", ApprovalInputs(scope, approvalId), "passed", TimeText(checkedAt), PathText(evidence));
    case OtherGuard(name, inputs, result, checked, reference) =>
      PlainGuardIsLines(name, inputs, result, checked, reference);
  }

  lemma ApprovalWords()
    ensures OneLine("approval_gate") && OneLine("passed")
  {
  }

  lemma {:induction false} GuardsAreLines(gs: seq<Guard>)
    requires forall g :: g in gs ==> SpelledGuard(g)
    ensures GuardBlock(AllGuardLines(gs))
  {
    if gs != [] {
      GuardIsLines(gs[0]);
      GuardsAreLines(gs[1..]);
    }
    hide GuardLine, GuardLines, SpelledGuard;
  }

  lemma {:induction false} GuardLinesConcat(a: seq<Guard>, b: seq<Guard>)
    ensures AllGuardLines(a + b) == AllGuardLines(a) + AllGuardLines(b)
  {
    hide GuardLines;
    if a == [] {
      assert a + b == b;
    } else {
      assert (a + b)[0] == a[0] && (a + b)[1..] == a[1..] + b;
      GuardLinesConcat(a[1..], b);
      var one, front, back := GuardLines(a[0]), AllGuardLines(a[1..]), AllGuardLines(b);
      assert one + (front + back) == (one + front) + back;
    }
  }

  // ---- Reading them -----------------------------------------------------------------------------------------------

  function ReadGuardLines(g: GuardMap, lines: seq<string>): GuardMap
    requires GuardBlock(lines)
    decreases |lines|
  {
    if lines == [] then g else assert lines[0] in lines; ReadGuardLines(ReadGuardLine(g, lines[0][4..]), lines[1..])
  }

  lemma ReadIndentedLine(s: Reading, front: seq<GuardMap>, g: GuardMap, line: string)
    requires s.guards == front + [g] && GuardLine(line)
    ensures ReadLine(s, line) == Some(s.(guards := front + [ReadGuardLine(g, line[4..])]))
  {
    hide ReadGuardLine, IsBlank;
    assert line[0] == ' ';
    var next, n := ReadGuardLine(g, line[4..]), |front|;
    assert s.guards[n] == g && s.guards[..n] == front;
  }

  /** Indented lines change nothing but the guard that was started last. */
  lemma {:induction false} ReadIndented(s: Reading, front: seq<GuardMap>, g: GuardMap, lines: seq<string>)
    requires s.guards == front + [g] && GuardBlock(lines)
    ensures ReadLines(s, lines) == Some(s.(guards := front + [ReadGuardLines(g, lines)]))
    decreases |lines|
  {
    hide ReadGuardLine, IsBlank;
    if lines != [] {
      assert lines[0] in lines && GuardLine(lines[0]);
      var next := ReadGuardLine(g, lines[0][4..]);
      ReadIndentedLine(s, front, g, lines[0]);
      ReadIndented(s.(guards := front + [next]), front, next, lines[1..]);
    }
  }

  lemma {:induction false} ReadGuardConcat(g: GuardMap, a: seq<string>, b: seq<string>)
    requires GuardBlock(a) && GuardBlock(b)
    ensures GuardBlock(a + b) && ReadGuardLines(g, a + b) == ReadGuardLines(ReadGuardLines(g, a), b)
    decreases |a|
  {
    hide ReadGuardLine, IsBlank;
    if a == [] {
      assert a + b == b;
    } else {
      assert (a + b)[0] == a[0] && (a + b)[1..] == a[1..] + b;
      assert a[0] in a;
      ReadGuardConcat(ReadGuardLine(g, a[0][4..]), a[1..], b);
    }
  }

  /** A field of a guard keeps the text as it was printed, quotes and all. */
  lemma ReadField(g: GuardMap, key: string, x: string)
    requires IsFieldName(key) && key != "inputs"
    ensures ReadGuardLine(g, Entry(key, x)) == SetField(g, key, Words(Strip(x)))
  {
    NameIsEntry(key);
    PartitionEntry(key, x);
    assert Entry(key, x)[0] == key[0];
    hide Partition, Strip, SetField, IsNameText, Stripped;
  }

  // ---- The printed words ------------------------------------------------------------------------------------------

  lemma NameUnquoted(s: string)
    requires IsFieldName(s) && |s| > 1 && !IsKeyword(s)
    ensures Emit(s) == s
  {
    NameIsEntry(s);
    LowersTo(s, s);
    StripKeeps(s);
    forall i | 0 <= i < |s| ensures !IsSpecial(s[i]) { NameCharIsPlain(s[i]); }
    NameCharIsPlain(s[0]);
    NameCharIsPlain(s[|s| - 1]);
    hide Strip, Lower, IsKeyword, IsSpecial, IsLeading, Stripped, IsSpace;
  }

  lemma NameCharIsPlain(c: char)
    requires 'a' <= c <= 'z' || c == '_'
    ensures !IsSpecial(c) && !IsLeading(c) && c != ' ' && c != '\t' && LowerChar(c) == c
  {
  }

  lemma WordsUnquoted()
    ensures Emit("scope") == "scope" && Emit("passed") == "passed"
    ensures Emit("approval_gate") == "approval_gate" && Emit("approval_id") == "approval_id"
  {
    hide Emit;
    NameUnquoted("scope");
    NameUnquoted("passed");
    NameUnquoted("approval_gate");
    NameUnquoted("approval_id");
  }

  lemma ScopeUnquoted(s: Scope)
    ensures Emit(ScopeText(s)) == ScopeText(s) && Stripped(ScopeText(s)) && ScopeText(s) != ""
  {
    hide Emit, IsSpace;
    NameUnquoted(ScopeText(s));
    NameIsEntry(ScopeText(s));
  }

  lemma TimeQuoted(t: string)
    requires IsTimeText(t)
    ensures Emit(t) == "\"" + t + "\""
  {
    assert IsSpecial(t[13]);
    EscapeNothing(t);
    hide IsLeading, Lower, IsKeyword, ScalarCodec.Escape;
  }

  // ---- The lines of an approval guard -----------------------------------------------------------------------------

  lemma {:induction false} StripPads(n: nat, t: string)
    ensures Strip(seq(n, _ => ' ') + t) == Strip(t)
  {
    var pad := seq(n, _ => ' ');
    if n == 0 {
      assert pad + t == t;
    } else {
      StripPads(n - 1, t);
      assert pad + t == " " + (seq(n - 1, _ => ' ') + t);
      StripPad(seq(n - 1, _ => ' ') + t);
    }
    hide Strip;
  }

  lemma StripIndented(t: string)
    ensures Strip(Indented(t)) == Strip(t) && Strip(Indented(Indented(t))) == Strip(t)
  {
    StripPads(4, t);
    StripPads(8, t);
    assert seq(4, _ => ' ') + t == Indented(t) && seq(8, _ => ' ') + t == Indented(Indented(t));
    hide Strip;
  }

  lemma EntryStripped(key: string, x: string)
    requires IsFieldName(key) && x != "" && Stripped(x)
    ensures Strip(Entry(key, x)) == Entry(key, x)
  {
    NameIsEntry(key);
    var line := Entry(key, x);
    assert line[0] == key[0] && line[|line| - 1] == x[|x| - 1];
    StripKeeps(line);
    hide Strip, IsSpace, IsNameText;
  }

  function WithInput(g: GuardMap, key: string): GuardMap { g.(inputs := Some(Inputs(g) + [Input(key, None)])) }

  function WithValue(g: GuardMap, val: string): GuardMap
    requires Inputs(g) != []
  {
    var inputs := Inputs(g);
    g.(inputs := Some(inputs[..|inputs| - 1] + [inputs[|inputs| - 1].(value := Some(val))]))
  }

  lemma ReadKey(g: GuardMap, x: string)
    ensures ReadGuardLine(g, Indented(Entry("key", x))) == WithInput(g, Strip(x))
  {
    MoreFieldNames();
    NameIsEntry("key");
    PartitionEntry("key", x);
    assert Indented(Entry("key", x))[4..] == Entry("key", x);
    hide Partition, Strip, Entry, Stripped;
  }

  lemma ReadValue(g: GuardMap, x: string)
    requires Inputs(g) != []
    ensures ReadGuardLine(g, Indented(Entry("value", x))) == WithValue(g, Strip(x))
  {
    MoreFieldNames();
    NameIsEntry("value");
    PartitionEntry("value", x);
    assert Indented(Entry("value", x))[4..] == Entry("value", x);
    assert "value"[0] == 'v' && "key"[0] == 'k';
    hide Partition, Strip, Entry, Stripped;
  }

  /** The first key, on the line of the heading. */
  lemma ReadInputsHeading(g: GuardMap, x: string)
    requires x != "" && Stripped(x)
    ensures ReadGuardLine(g, Entry("inputs", Indented(Indented(Entry("key", x))))) == WithInput(g, x)
  {
    var key := Entry("key", x);
    MoreFieldNames();
    NameIsEntry("inputs");
    NameIsEntry("key");
    PartitionEntry("inputs", Indented(Indented(key)));
    StripIndented(key);
    EntryStripped("key", x);
    PartitionEntry("key", x);
    StripKeeps(x);
    var line := Entry("inputs", Indented(Indented(key)));
    assert line[0] == 'i';
    hide Partition, Strip, Entry, Indented, Stripped, IsFieldName;
  }

  lemma SetFields(g: GuardMap, v: Value)
    ensures SetField(g, "checked_at", v) == g.(checked := Some(v)) && SetField(g, "guard", v) == g.(name := Some(v))
    ensures SetField(g, "evidence_ref", v) == g.(reference := Some(v)) && SetField(g, "result", v) == g.(result := Some(v))
  {
    assert |"checked_at"| == 10 && |"evidence_ref"| == 12 && |"guard"| == 5 && |"result"| == 6;
  }

  /** The lines of an approval guard after its time. */
  function ApprovalTail(a: Guard): seq<string>
    requires a.ApprovalGuard?
  {
    [Indented(Entry("evidence_ref", Emit(PathText(a.evidence)))), Indented(Entry("guard", "approval_gate")),
     Indented(Entry("inputs", Indented(Indented(Entry("key", "scope"))))),
     Indented(Indented(Entry("value", ScopeText(a.scope)))), Indented(Indented(Entry("key", "approval_id"))),
     Indented(Indented(Entry("value", Emit(a.approvalId.text)))), Indented(Entry("result", "passed"))]
  }

  lemma TwoInputs(i: GuardInput, j: GuardInput)
    ensures InputLines([i, j]) ==
      [Indented(Entry("inputs", Indented(Indented(Entry("key", Emit(i.key)))))), Indented(Indented(Entry("value", ValueText(i.value)))),
       Indented(Indented(Entry("key", Emit(j.key)))), Indented(Indented(Entry("value", ValueText(j.value))))]
  {
    hide Emit, Entry, Indented, ValueText;
    assert [i, j][1..] == [j] && [j][1..] == [];
    assert PairLines([j]) == [Indented(Indented(Entry("key", Emit(j.key)))), Indented(Indented(Entry("value", ValueText(j.value))))];
  }

  lemma Regrouped(a: string, b: string, c: string, d: string, e: string, f: string, g: string, h: string)
    ensures [a, b, c] + [d, e, f, g] + [h] == [a] + [b, c, d, e, f, g, h]
  {
  }

  lemma ApprovalLines(a: Guard)
    requires a.ApprovalGuard?
    ensures GuardLines(a) == [Indented(Entry("checked_at", Emit(TimeText(a.checkedAt))))] + ApprovalTail(a)
  {
    WordsUnquoted();
    ScopeUnquoted(a.scope);
    ApprovalInputLines(a);
    var t := ApprovalTail(a);
    hide Emit, Entry, Indented, TimeText, PathText, ScopeText, InputLines, ApprovalInputs;
    Regrouped(Indented(Entry("checked_at", Emit(TimeText(a.checkedAt)))), t[0], t[1], t[2], t[3], t[4], t[5], t[6]);
    assert t == [t[0], t[1], t[2], t[3], t[4], t[5], t[6]];
    hide ApprovalTail;
  }

  lemma ApprovalInputLines(a: Guard)
    requires a.ApprovalGuard?
    ensures var t := ApprovalTail(a); InputLines(ApprovalInputs(a.scope, a.approvalId)) == [t[2], t[3], t[4], t[5]]
  {
    WordsUnquoted();
    ScopeUnquoted(a.scope);
    var inputs := ApprovalInputs(a.scope, a.approvalId);
    TwoInputs(inputs[0], inputs[1]);
    hide Emit, Entry, Indented, TimeText, PathText, ScopeText, InputLines, PairLines;
    assert inputs == [inputs[0], inputs[1]];
  }

  /** What the reader makes of them: paths and ids as they were printed. */
  function WithApproval(g: GuardMap, a: Guard): GuardMap
    requires a.ApprovalGuard?
  {
    GuardMap(g.checked, Some(Words(Strip(Emit(PathText(a.evidence))))), Some(Words("approval_gate")), Some(Words("passed")),
             Some(Inputs(g) + [Input("scope", Some(ScopeText(a.scope))),
                               Input("approval_id", Some(Strip(Emit(a.approvalId.text))))]))
  }

  lemma ReadNext(g: GuardMap, lines: seq<string>, line: string)
    requires GuardBlock(lines) && lines != [] && lines[0] == Indented(line)
    ensures GuardBlock(lines[1..]) && ReadGuardLines(g, lines) == ReadGuardLines(ReadGuardLine(g, line), lines[1..])
  {
    assert lines[0][4..] == line;
    hide ReadGuardLine, GuardLine;
  }

  lemma ReadNothing(g: GuardMap, lines: seq<string>)
    requires lines == []
    ensures ReadGuardLines(g, lines) == g
  {
  }

  lemma ReadTail(g: GuardMap, a: Guard)
    requires a.ApprovalGuard? && GuardBlock(ApprovalTail(a))
    ensures ReadGuardLines(g, ApprovalTail(a)) == WithApproval(g, a)
  {
    var path, id := Strip(Emit(PathText(a.evidence))), Strip(Emit(a.approvalId.text));
    var g2 := g.(reference := Some(Words(path)), name := Some(Words("approval_gate")));
    var lines := ApprovalTail(a);
    ReadFront(g, lines, Emit(PathText(a.evidence)));
    ReadRest(WithInput(g2, "scope"), a, lines[3..]);
    hide ReadGuardLines, GuardBlock, Entry, Indented, Emit, Strip, ScopeText, PathText, ApprovalTail;
    InputsMeet(g2, a.scope, id);
  }

  /** The lines up to the heading of the inputs. */
  lemma ReadFront(g: GuardMap, lines: seq<string>, path: string)
    requires GuardBlock(lines) && |lines| >= 3
    requires lines[0] == Indented(Entry("evidence_ref", path)) && lines[1] == Indented(Entry("guard", "approval_gate"))
    requires lines[2] == Indented(Entry("inputs", Indented(Indented(Entry("key", "scope")))))
    ensures GuardBlock(lines[3..])
    ensures ReadGuardLines(g, lines) ==
      ReadGuardLines(WithInput(g.(reference := Some(Words(Strip(path))), name := Some(Words("approval_gate"))), "scope"), lines[3..])
  {
    FieldNames();
    MoreFieldNames();
    WordsStripped();
    assert "scope" != "" && Stripped("scope");
    hide ReadGuardLine, ReadGuardLines, GuardBlock, Entry, Indented, Strip, Stripped, IsFieldName, SetField, WithInput;
    ReadNext(g, lines, Entry("evidence_ref", path));
    ReadField(g, "evidence_ref", path);
    SetFields(g, Words(Strip(path)));
    var g1 := g.(reference := Some(Words(Strip(path))));
    ReadNext(g1, lines[1..], Entry("guard", "approval_gate"));
    ReadField(g1, "guard", "approval_gate");
    SetFields(g1, Words("approval_gate"));
    var g2 := g1.(name := Some(Words("approval_gate")));
    assert lines[1..][1..] == lines[2..] && lines[2..][1..] == lines[3..];
    ReadNext(g2, lines[2..], Entry("inputs", Indented(Indented(Entry("key", "scope")))));
    ReadInputsHeading(g2, "scope");
  }

  lemma WordsStripped()
    ensures Strip("approval_gate") == "approval_gate" && Strip("approval_id") == "approval_id" && Strip("passed") == "passed"
  {
    StripKeeps("approval_gate");
    StripKeeps("approval_id");
    StripKeeps("passed");
    hide Strip;
  }

  lemma InputsMeet(g: GuardMap, scope: Scope, id: string)
    ensures Inputs(WithValue(WithInput(WithValue(WithInput(g, "scope"), ScopeText(scope)), "approval_id"), id))
         == Inputs(g) + [Input("scope", Some(ScopeText(scope))), Input("approval_id", Some(id))]
  {
    hide ScopeText;
    var one := Inputs(WithValue(WithInput(g, "scope"), ScopeText(scope)));
    assert one == Inputs(g) + [Input("scope", Some(ScopeText(scope)))];
    assert Inputs(WithValue(WithInput(WithValue(WithInput(g, "scope"), ScopeText(scope)), "approval_id"), id))
        == one + [Input("approval_id", Some(id))];
  }

  /** The lines after the heading of the inputs. */
  lemma ReadRest(g: GuardMap, a: Guard, lines: seq<string>)
    requires a.ApprovalGuard? && GuardBlock(lines) && lines == ApprovalTail(a)[3..] && Inputs(g) != []
    ensures ReadGuardLines(g, lines) ==
      WithValue(WithInput(WithValue(g, ScopeText(a.scope)), "approval_id"), Strip(Emit(a.approvalId.text))).(result := Some(Words("passed")))
  {
    FieldNames();
    ScopeUnquoted(a.scope);
    WordsStripped();
    var id := Emit(a.approvalId.text);
    StripKeeps(ScopeText(a.scope));
    hide ReadGuardLine, ReadGuardLines, GuardBlock, Entry, Indented, Emit, Strip, Stripped, ScopeText, PathText, IsFieldName, SetField;
    ReadNext(g, lines, Indented(Entry("value", ScopeText(a.scope))));
    ReadValue(g, ScopeText(a.scope));
    var g4 := WithValue(g, ScopeText(a.scope));
    ReadNext(g4, lines[1..], Indented(Entry("key", "approval_id")));
    ReadKey(g4, "approval_id");
    var g5 := WithInput(g4, "approval_id");
    ReadNext(g5, lines[2..], Indented(Entry("value", id)));
    ReadValue(g5, id);
    var g6 := WithValue(g5, Strip(id));
    ReadNext(g6, lines[3..], Entry("result", "passed"));
    ReadField(g6, "result", "passed");
    SetFields(g6, Words("passed"));
    ReadNothing(g6.(result := Some(Words("passed"))), lines[4..]);
  }

  // ---- The guards of an event -------------------------------------------------------------------------------------

  lemma QuotedStripped(t: string)
    ensures Stripped("\"" + t + "\"")
  {
  }

  lemma EmittedStripped(s: string)
    requires s != "" && Stripped(s)
    ensures Emit(s) != "" && Stripped(Emit(s))
  {
    if NeedsQuoting(s) { QuotedStripped(ScalarCodec.Escape(s)); }
    hide NeedsQuoting, ScalarCodec.Escape;
  }

  lemma TimeIsNoNumber(s: string)
    requires IsTimeText(s)
    ensures !IsDigits(s) && Stripped(s) && s != "" && OneLine(s)
  {
    TimeIsOneLine(s);
    if IsDigits(s) { DashIsNoDigit(s); }
    hide IsDigits, OneLine;
  }

  lemma DashIsNoDigit(s: string)
    requires IsDigits(s) && |s| > 4
    ensures s[4] != '-'
  {
    DigitIsPlain(s[4]);
    hide IsDigitChar;
  }

  lemma CheckedAtName()
    ensures IsFieldName("checked_at") && ':' !in "checked_at" && Stripped("checked_at")
  {
    FieldNames();
    NameIsEntry("checked_at");
  }

  /** A stored time comes back from the heading. */
  lemma TimeIsSpelling(t: string)
    requires IsTimeText(t)
    ensures IsTimeSpelling(t) && Coerce(Emit(t)) == Some(Words(t))
  {
    hide Coerce, Emit, IsDigits, IsTimeText, Stripped, OneLine;
    TimeIsNoNumber(t);
    TimeQuoted(t);
    CoerceQuoted(t);
  }

  lemma SpellingCoerces(t: string)
    requires IsTimeSpelling(t)
    ensures Coerce(Emit(t)).Some? && Emit(t) != "" && Stripped(Emit(t))
  {
    hide Coerce, Emit, IsDigits, OneLine, NeedsQuoting;
    CoerceEmitted(t);
    EmittedStripped(t);
  }

  /** The heading starts a guard and holds its time, which loses its quotes there and nowhere else. */
  lemma ReadGuardHeading(s: Reading, t: string)
    requires IsTimeSpelling(t)
    ensures Coerce(Emit(t)).Some?
    ensures ReadLine(s, Entry(Name(GuardResultsKey), Indented(Entry("checked_at", Emit(t)))))
         == Some(s.(guards := s.guards + [NO_GUARD.(checked := Some(Coerce(Emit(t)).value))]))
  {
    hide Emit, Name, Find, Partition, Strip, Coerce, IsBlank, IsEntry, Stripped, IsTimeSpelling, IsFieldName, SetField;
    var time, text := Emit(t), Indented(Entry("checked_at", Emit(t)));
    SpellingCoerces(t);
    CheckedAtName();
    NamedIsEntry(GuardResultsKey, text);
    FindName(GuardResultsKey);
    StripIndented(Entry("checked_at", time));
    EntryStripped("checked_at", time);
    PartitionEntry("checked_at", time);
    CoerceStripped(time);
    SetFields(NO_GUARD, Coerce(time).value);
    assert Entry("checked_at", time) != "" && "checked_at" != "";
    hide Entry, Indented;
  }

  function CheckedOf(g: Guard): string { if g.ApprovalGuard? then TimeText(g.checkedAt) else g.checked }

  lemma FirstLine(g: Guard)
    ensures |GuardLines(g)| > 0 && GuardLines(g)[0] == Indented(Entry("checked_at", Emit(CheckedOf(g))))
  {
    hide InputLines, Emit, Entry, Indented, TimeText, PathText, ApprovalInputs;
  }

  lemma SplitLast(gs: seq<Guard>)
    requires gs != []
    ensures AllGuardLines(gs) == AllGuardLines(gs[..|gs| - 1]) + GuardLines(gs[|gs| - 1])
  {
    hide GuardLines;
    var n := |gs| - 1;
    GuardLinesConcat(gs[..n], [gs[n]]);
    assert gs == gs[..n] + [gs[n]];
    assert [gs[n]][1..] == [] && AllGuardLines([gs[n]]) == GuardLines(gs[n]) + [];
  }

  lemma FirstOfAll(gs: seq<Guard>)
    requires gs != []
    ensures |AllGuardLines(gs)| > 0 && AllGuardLines(gs)[0] == GuardLines(gs[0])[0]
  {
    FirstLine(gs[0]);
    hide GuardLines;
  }

  /** The text of the guards, line by line. */
  lemma GuardBlockLines(gs: seq<Guard>)
    requires gs != [] && forall g :: g in gs ==> SpelledGuard(g)
    ensures GuardBlock(AllGuardLines(gs)) && AllGuardLines(gs) != []
    ensures LineCodec.Split(Entry(Name(GuardResultsKey), FieldText(Guards(gs))))
         == [Entry(Name(GuardResultsKey), AllGuardLines(gs)[0])] + AllGuardLines(gs)[1..]
  {
    hide AllGuardLines, GuardLines, Name, SpelledGuard, GuardLine;
    GuardsAreLines(gs);
    FirstOfAll(gs);
    SplitEntry(GuardResultsKey, AllGuardLines(gs));
  }

  lemma BlockHasNoFeed(ls: seq<string>)
    requires GuardBlock(ls)
    ensures forall l :: l in ls ==> '\n' !in l
  {
    hide IsBlank, IsIndented;
    forall l | l in ls ensures '\n' !in l { assert GuardLine(l); }
  }

  lemma SplitEntry(k: Key, ls: seq<string>)
    requires ls != [] && GuardBlock(ls)
    ensures LineCodec.Split(Entry(Name(k), Lines(ls))) == [Entry(Name(k), ls[0])] + ls[1..]
  {
    var name := Name(k) + ": ";
    NameShape(k);
    NameIsEntry(Name(k));
    hide Name, GuardLine, LineCodec.Split, Lines, Stripped, Signature, IsNameText;
    BlockHasNoFeed(ls);
    SplitLines(ls);
    SplitFront(name, Lines(ls));
    assert name + ls[0] == Entry(Name(k), ls[0]) && name + Lines(ls) == Entry(Name(k), Lines(ls));
  }

  /** What several guards are read as: one guard whose time still has its quotes. */
  predicate GuardsRead(gs: seq<Guard>, m: GuardMap)
    requires gs != [] && gs[|gs| - 1].ApprovalGuard?
  {
    var last := gs[|gs| - 1];
    if |gs| == 1 then m == WithApproval(NO_GUARD.(checked := Some(Words(TimeText(last.checkedAt)))), last)
    else m.checked == Some(Words("\"" + TimeText(last.checkedAt) + "\"")) && m.name == Some(Words("approval_gate"))
  }

  lemma CheckedIsSpelled(gs: seq<Guard>)
    requires gs != [] && forall g :: g in gs ==> SpelledGuard(g)
    ensures IsTimeSpelling(CheckedOf(gs[0]))
    ensures gs[0].ApprovalGuard? ==> Coerce(Emit(CheckedOf(gs[0]))) == Some(Words(TimeText(gs[0].checkedAt)))
  {
    assert gs[0] in gs;
    if gs[0].ApprovalGuard? { TimeIsSpelling(TimeText(gs[0].checkedAt)); }
    hide TimeText, Coerce, Emit, IsTimeSpelling;
  }

  lemma ReadGuards(s: Reading, gs: seq<Guard>) returns (m: GuardMap)
    requires gs != [] && gs[|gs| - 1].ApprovalGuard? && forall g :: g in gs ==> SpelledGuard(g)
    ensures ReadLines(s, LineCodec.Split(Entry(Name(GuardResultsKey), FieldText(Guards(gs))))) == Some(s.(guards := s.guards + [m]))
    ensures GuardsRead(gs, m)
  {
    hide FieldText, Emit, Coerce, IsTimeSpelling, LineCodec.Split, SpelledGuard, TimeText, ReadLine, GuardLines, Name, GuardLine, Entry, Indented;
    var ls, t := AllGuardLines(gs), CheckedOf(gs[0]);
    GuardBlockLines(gs);
    FirstLine(gs[0]);
    CheckedIsSpelled(gs);
    assert ls[0] == GuardLines(gs[0])[0];
    ReadGuardHeading(s, t);
    var start := NO_GUARD.(checked := Some(Coerce(Emit(t)).value));
    var head := Entry(Name(GuardResultsKey), ls[0]);
    assert ([head] + ls[1..])[0] == head && ([head] + ls[1..])[1..] == ls[1..];
    assert GuardBlock(ls[1..]);
    ReadIndented(s.(guards := s.guards + [start]), s.guards, start, ls[1..]);
    m := ReadGuardLines(start, ls[1..]);
    hide ReadLines, GuardsRead, GuardBlock, AllGuardLines;
    ReadAll(gs, start);
  }

  lemma ReadAll(gs: seq<Guard>, start: GuardMap)
    requires gs != [] && gs[|gs| - 1].ApprovalGuard? && GuardBlock(AllGuardLines(gs)) && AllGuardLines(gs) != []
    requires forall g :: g in gs ==> SpelledGuard(g)
    requires |gs| == 1 ==> start == NO_GUARD.(checked := Some(Words(TimeText(gs[0].checkedAt))))
    ensures GuardBlock(AllGuardLines(gs)[1..]) && GuardsRead(gs, ReadGuardLines(start, AllGuardLines(gs)[1..]))
  {
    if |gs| == 1 {
      ReadLone(gs[0], start);
      OneGuard(gs);
      hide ReadGuardLines, GuardLines, WithApproval, TimeText, GuardLine, AllGuardLines;
    } else {
      hide GuardsRead;
      ReadSeveral(gs, start);
    }
  }

  lemma OneGuard(gs: seq<Guard>)
    requires |gs| == 1
    ensures AllGuardLines(gs) == GuardLines(gs[0])
  {
    hide GuardLines;
    assert gs[1..] == [];
  }

  lemma ReadLone(g: Guard, start: GuardMap)
    requires g.ApprovalGuard? && GuardBlock(GuardLines(g)) && |GuardLines(g)| > 0
    ensures GuardBlock(GuardLines(g)[1..]) && ReadGuardLines(start, GuardLines(g)[1..]) == WithApproval(start, g)
  {
    ApprovalLines(g);
    hide ReadGuardLines, GuardLines, ApprovalTail, WithApproval, Emit, Entry, Indented, TimeText, GuardLine;
    assert GuardLines(g)[1..] == ApprovalTail(g);
    ReadTail(start, g);
  }

  lemma ReadSeveral(gs: seq<Guard>, start: GuardMap)
    requires |gs| > 1 && gs[|gs| - 1].ApprovalGuard? && forall g :: g in gs ==> SpelledGuard(g)
    requires GuardBlock(AllGuardLines(gs))
    ensures AllGuardLines(gs) != [] && GuardBlock(AllGuardLines(gs)[1..])
    ensures GuardsRead(gs, ReadGuardLines(start, AllGuardLines(gs)[1..]))
  {
    hide ReadGuardLines, GuardLines, AllGuardLines, ApprovalTail, SpelledGuard, TimeText, Emit, Entry, Indented, GuardLine;
    var n := |gs| - 1;
    var last, front := gs[n], AllGuardLines(gs[..n]);
    SplitLast(gs);
    GuardsAreLines(gs[..n]);
    FirstOfAll(gs[..n]);
    GuardIsLines(last);
    ApprovalLines(last);
    assert AllGuardLines(gs)[1..] == front[1..] + GuardLines(last);
    LastGuardWins(start, front[1..], last);
  }

  lemma LastGuardWins(g: GuardMap, front: seq<string>, last: Guard)
    requires last.ApprovalGuard?
    requires GuardBlock(front) && GuardBlock([Indented(Entry("checked_at", Emit(TimeText(last.checkedAt))))] + ApprovalTail(last))
    ensures var lines := front + ([Indented(Entry("checked_at", Emit(TimeText(last.checkedAt))))] + ApprovalTail(last));
      && GuardBlock(lines) && ReadGuardLines(g, lines).checked == Some(Words("\"" + TimeText(last.checkedAt) + "\""))
      && ReadGuardLines(g, lines).name == Some(Words("approval_gate"))
  {
    var time, tail := Emit(TimeText(last.checkedAt)), ApprovalTail(last);
    var lines := [Indented(Entry("checked_at", time))] + tail;
    TimeQuoted(TimeText(last.checkedAt));
    QuotedStripped(TimeText(last.checkedAt));
    FieldNames();
    hide Emit, Entry, Indented, ApprovalTail, GuardLine, ReadGuardLine, TimeText, Strip, Stripped, IsFieldName, SetField;
    ReadGuardConcat(g, front, lines);
    hide ReadGuardLines;
    var h := ReadGuardLines(g, front);
    ReadNext(h, lines, Entry("checked_at", time));
    ReadField(h, "checked_at", time);
    SetFields(h, Words(Strip(time)));
    StripKeeps(time);
    assert lines[1..] == tail;
    ReadTail(h.(checked := Some(Words(time))), last);
  }
}
