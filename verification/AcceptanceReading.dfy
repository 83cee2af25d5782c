/** What the front matter of an acceptance record says once it is read back: a line below the first of a reference or of a
    risk counts as an entry of its own. */
module AcceptanceReading {
  import opened Wrappers
  import opened Texts
  import opened Approvals
  import opened Ledger
  import opened Events
  import opened EventReader
  import opened EventLines
  import opened EventGuards
  import opened EventReading
  import opened EventRecovery
  import opened EventFiles
  import opened AcceptanceFiles
  import Decimal

  // ---- Line breaks ------------------------------------------------------------------------------------------------

  predicate IsUnbroken(s: string) { forall i :: 0 <= i < |s| ==> !IsBreak(s[i]) }

  lemma {:induction false} PiecesFront(a: string, x: string)
    requires IsUnbroken(a)
    ensures Pieces(a + x) == [a + Pieces(x)[0]] + Pieces(x)[1..]
  {
    hide IsBreak;
    if a == "" {
      assert a + x == x && a + Pieces(x)[0] == Pieces(x)[0];
    } else {
      ReturnBreaks();
      assert (a + x)[0] == a[0] && (a + x)[1..] == a[1..] + x && !IsLineEnd(a + x);
      PiecesFront(a[1..], x);
      assert [a[0]] + (a[1..] + Pieces(x)[0]) == a + Pieces(x)[0];
    }
  }

  lemma ReturnBreaks()
    ensures IsBreak('\r') && IsBreak('\n') && IsSpace('\r')
  {
  }

  lemma PiecesUnbroken(s: string)
    requires IsUnbroken(s)
    ensures Pieces(s) == [s]
  {
    PiecesFront(s, "");
    assert s + "" == s;
  }

  lemma PiecesAfterEnd(s: string)
    requires IsLineEnd(s)
    ensures Pieces(s) == [""] + Pieces(s[2..])
  {
  }

  lemma PiecesAfter(s: string)
    requires s != "" && !IsLineEnd(s)
    ensures Pieces(s) == if IsBreak(s[0]) then [""] + Pieces(s[1..]) else [[s[0]] + Pieces(s[1..])[0]] + Pieces(s[1..])[1..]
  {
  }

  lemma {:induction false} PiecesConcat(a: string, b: string)
    requires NoReturnAtEnd(a)
    ensures Pieces(a + "\n" + b) == Pieces(a) + Pieces(b)
  {
    ReturnBreaks();
    hide IsBreak, Pieces;
    var s := a + "\n" + b;
    if a == "" {
      assert s[0] == '\n' && s[1..] == b;
      PiecesAfter(s);
      PiecesUnbroken("");
    } else if IsLineEnd(a) {
      assert s[..2] == a[..2] && s[2..] == a[2..] + "\n" + b;
      PiecesConcat(a[2..], b);
      PiecesAfterEnd(a);
      PiecesAfterEnd(s);
    } else {
      assert s[0] == a[0] && s[1..] == a[1..] + "\n" + b;
      assert IsLineEnd(s) ==> |a| == 1;
      PiecesConcat(a[1..], b);
      PiecesAfter(a);
      PiecesAfter(s);
      assert Pieces(a[1..]) != [];
    }
  }

  /** The pieces of a list of lines. */
  function AllPieces(ls: seq<string>): seq<string> { if ls == [] then [] else Pieces(ls[0]) + AllPieces(ls[1..]) }

  lemma {:induction false} PiecesOfLines(ls: seq<string>, rest: seq<string>)
    requires rest != [] && forall l :: l in ls ==> NoReturnAtEnd(l)
    ensures Pieces(Lines(ls + rest)) == AllPieces(ls) + Pieces(Lines(rest))
  {
    hide Pieces;
    if ls == [] {
      assert ls + rest == rest;
    } else {
      assert (ls + rest)[0] == ls[0] && (ls + rest)[1..] == ls[1..] + rest;
      PiecesOfLines(ls[1..], rest);
      assert ls[0] in ls;
      PiecesConcat(ls[0], Lines(ls[1..] + rest));
    }
  }

  lemma {:induction false} AllPiecesConcat(a: seq<string>, b: seq<string>)
    ensures AllPieces(a + b) == AllPieces(a) + AllPieces(b)
  {
    hide Pieces;
    if a == [] {
      assert a + b == b;
    } else {
      assert (a + b)[0] == a[0] && (a + b)[1..] == a[1..] + b;
      AllPiecesConcat(a[1..], b);
    }
  }

  lemma {:induction false} AllUnbroken(ls: seq<string>)
    requires forall l :: l in ls ==> IsUnbroken(l)
    ensures AllPieces(ls) == ls
  {
    hide IsUnbroken, Pieces;
    if ls != [] {
      assert ls[0] in ls;
      PiecesUnbroken(ls[0]);
      AllUnbroken(ls[1..]);
    }
  }

  // ---- Lines read on their own ------------------------------------------------------------------------------------

  function MatterAlone(lines: seq<string>): Option<map<Heading, Value>> { ReadMatterLines(map[], lines) }

  lemma MatterLineIndependent(m: map<Heading, Value>, line: string)
    ensures var one := ReadMatterLine(map[], line);
      && (ReadMatterLine(m, line).None? <==> one.None?)
      && (one.Some? ==> ReadMatterLine(m, line).value == m + one.value)
  {
    hide Strip, Partition, CoerceEntry, FindHeading, IsMatterEntry;
    var one := ReadMatterLine(map[], line);
    if one.Some? && ReadMatterLine(m, line).Some? {
      assert ReadMatterLine(m, line).value == m + one.value;
    }
  }

  lemma {:induction false} MatterIndependent(m: map<Heading, Value>, lines: seq<string>)
    ensures ReadMatterLines(m, lines).None? <==> MatterAlone(lines).None?
    ensures MatterAlone(lines).Some? ==> ReadMatterLines(m, lines).value == m + MatterAlone(lines).value
    decreases |lines|
  {
    hide ReadMatterLine;
    if lines != [] {
      MatterLineIndependent(m, lines[0]);
      var one := ReadMatterLine(map[], lines[0]);
      if one.Some? {
        MatterIndependent(ReadMatterLine(m, lines[0]).value, lines[1..]);
        MatterIndependent(one.value, lines[1..]);
      }
    }
  }

  lemma {:induction false} MatterConcat(m: map<Heading, Value>, a: seq<string>, b: seq<string>)
    ensures ReadMatterLines(m, a + b) ==
      match ReadMatterLines(m, a) case None => None case Some(n) => ReadMatterLines(n, b)
    decreases |a|
  {
    hide ReadMatterLine;
    if a == [] {
      assert a + b == b;
    } else {
      assert (a + b)[0] == a[0] && (a + b)[1..] == a[1..] + b;
      if ReadMatterLine(m, a[0]).Some? { MatterConcat(ReadMatterLine(m, a[0]).value, a[1..], b); }
    }
  }

  // ---- Captions ---------------------------------------------------------------------------------------------------

  function CaptionMark(h: Heading): Mark {
    match h
    case SchemaHeading => Mark(14, 's', 'n')
    case TaskHeading => Mark(7, 't', 'd')
    case RevisionHeading => Mark(8, 'r', 'n')
    case DecisionHeading => Mark(8, 'd', 'n')
    case DispatchHeading => Mark(20, 'r', 'd')
    case AttemptHeading => Mark(7, 'a', 't')
    case TypeHeading => Mark(4, 't', 'e')
    case RoleHeading => Mark(7, 'r', 'd')
    case ReviewerRoleHeading => Mark(16, 'r', 'd')
    case ReviewerHeading => Mark(11, 'r', 'd')
    case LeaseHeading => Mark(11, 'l', 'h')
    case BaseHeading => Mark(11, 'b', 't')
    case ImplementationHeading => Mark(21, 'i', 't')
    case ReportHeading => Mark(13, 'r', 't')
    case AcceptedHeading => Mark(15, 'a', 't')
  }

  predicate IsCaption(h: Heading) {
    var s := Caption(h);
    && IsNameText(s) && 'a' <= s[0] && s[|s| - 1] != '_' && Mark(|s|, s[0], s[|s| - 1]) == CaptionMark(h)
  }

  lemma EarlyCaptions(h: Heading)
    requires h.SchemaHeading? || h.TaskHeading? || h.RevisionHeading? || h.DecisionHeading? || h.AttemptHeading?
    ensures IsCaption(h)
  {
  }

  lemma MiddleCaptions(h: Heading)
    requires h.DispatchHeading? || h.TypeHeading? || h.RoleHeading? || h.LeaseHeading?
    ensures IsCaption(h)
  {
  }

  lemma ReviewerCaptions(h: Heading)
    requires h.ReviewerRoleHeading? || h.ReviewerHeading? || h.BaseHeading?
    ensures IsCaption(h)
  {
  }

  lemma CommitCaptions(h: Heading)
    requires h.ImplementationHeading? || h.ReportHeading? || h.AcceptedHeading?
    ensures IsCaption(h)
  {
  }

  lemma CaptionShape(h: Heading)
    ensures IsCaption(h)
  {
    hide IsCaption;
    if h.SchemaHeading? || h.TaskHeading? || h.RevisionHeading? || h.DecisionHeading? || h.AttemptHeading? {
      EarlyCaptions(h);
    } else if h.DispatchHeading? || h.TypeHeading? || h.RoleHeading? || h.LeaseHeading? {
      MiddleCaptions(h);
    } else if h.ReviewerRoleHeading? || h.ReviewerHeading? || h.BaseHeading? {
      ReviewerCaptions(h);
    } else {
      CommitCaptions(h);
    }
  }

  lemma CaptionMarksDiffer(h: Heading, i: Heading)
    requires CaptionMark(h) == CaptionMark(i)
    ensures h == i
  {
  }

  lemma CaptionInjective(h: Heading, i: Heading)
    requires Caption(h) == Caption(i)
    ensures h == i
  {
    CaptionShape(h);
    CaptionShape(i);
    hide Caption, IsNameText, CaptionMark;
    CaptionMarksDiffer(h, i);
  }

  lemma {:induction false} FindByCaption(h: Heading, hs: seq<Heading>)
    requires h in hs
    ensures FindHeading(Caption(h), hs) == Some(h)
  {
    hide Caption;
    if Caption(hs[0]) == Caption(h) { CaptionInjective(hs[0], h); } else { FindByCaption(h, hs[1..]); }
  }

  lemma AllHeadings(h: Heading)
    ensures h in HEADINGS
  {
  }

  lemma FindCaption(h: Heading)
    ensures FindHeading(Caption(h), HEADINGS) == Some(h)
  {
    AllHeadings(h);
    hide HEADINGS, Caption, FindHeading;
    FindByCaption(h, HEADINGS);
  }

  /** Marks that no entry of a record has. */
  lemma NoCaption(s: string)
    requires s == "" || s[0] in "-ogec" || |s| == 12 || (|s| == 14 && s[0] == 'r')
    ensures FindHeading(s, HEADINGS) == None
  {
    var h := FindHeading(s, HEADINGS);
    if h.Some? {
      CaptionShape(h.value);
      MarksOfCaptions(h.value);
    }
    hide Caption, FindHeading, HEADINGS, CaptionMark, IsNameText;
  }

  lemma MarksOfCaptions(h: Heading)
    ensures var m := CaptionMark(h);
      m.first != 'o' && m.first != 'g' && m.first != 'e' && m.first != 'c' && m.length != 12 && (m.length == 14 ==> m.first == 's')
  {
  }

  // ---- Entries ----------------------------------------------------------------------------------------------------

  /** The line of an entry. */
  lemma EntryReads(m: map<Heading, Value>, name: string, text: string)
    requires IsFieldName(name)
    ensures ReadMatterLine(m, Entry(name, text)) ==
      match CoerceEntry(Strip(text))
      case None => None
      case Some(v) =>
        var h := FindHeading(name, HEADINGS);
        Some(if h.Some? then m[h.value := v] else m)
    ensures !IsRule(Entry(name, text))
  {
    hide Strip, Partition, CoerceEntry, FindHeading, HEADINGS, IsNameText, Stripped;
    EntryStrips(name, text);
  }

  lemma EntryStrips(name: string, text: string)
    requires IsFieldName(name)
    ensures var s := Strip(Entry(name, text));
      IsMatterEntry(s) && Partition(s) == (name, Strip(text)) && s != "---"
  {
    var line := Entry(name, text);
    NameIsEntry(name);
    NotSpace();
    ColonIsNoSpace();
    hide IsNameText, Stripped, IsSpace, Partition;
    assert line[|name|] == ':' && line[0] == name[0];
    StripStops(line, |name|);
    var s := Strip(line);
    assert s[|name|] == line[..|name| + 1][|name|] && s[0] == line[..|name| + 1][0];
    assert ':' in s;
    NameStart(name);
    StripEntry(name, text);
    assert "---"[0] == '-';
  }

  lemma NameStart(name: string)
    requires IsFieldName(name)
    ensures name[0] != '#' && name[0] != '-'
  {
  }

  lemma ColonIsNoSpace()
    ensures !IsSpace(':')
  {
  }

  /** Stripping an entry strips its text. */
  lemma StripEntry(name: string, text: string)
    requires IsFieldName(name)
    ensures Partition(Strip(Entry(name, text))) == (name, Strip(text))
  {
    var line := Entry(name, text);
    NameIsEntry(name);
    ColonIsNoSpace();
    hide IsNameText, IsSpace;
    StripLeftKeeps(line);
    StripRightEntry(name, " " + text);
    assert name + ":" + (" " + text) == line;
    var rest := StripRight(" " + text);
    hide StripRight, StripLeft;
    PartitionAt(name, rest);
    StripKeeps(name);
    StripRightStrips(" " + text);
    StripPad(text);
    hide Partition, Stripped;
  }

  lemma StripLeftKeeps(s: string)
    requires s != "" && !IsSpace(s[0])
    ensures StripLeft(s) == s
  {
  }

  lemma {:induction false} StripRightEntry(name: string, text: string)
    requires !IsSpace(':')
    ensures StripRight(name + ":" + text) == name + ":" + StripRight(text)
  {
    hide IsSpace;
    var s := name + ":" + text;
    if text == "" {
      assert s[|s| - 1] == ':';
    } else {
      var n := |text| - 1;
      assert s[|s| - 1] == text[n] && s[..|s| - 1] == name + ":" + text[..n];
      if IsSpace(text[n]) { StripRightEntry(name, text[..n]); }
    }
  }

  lemma {:induction false} StripRightStrips(s: string)
    ensures Strip(StripRight(s)) == Strip(s)
  {
    hide IsSpace;
    if s != "" && IsSpace(s[|s| - 1]) {
      StripRightStrips(s[..|s| - 1]);
      StripDropsLast(s);
    }
  }

  lemma {:induction false} StripDropsLast(s: string)
    requires s != "" && IsSpace(s[|s| - 1])
    ensures Strip(s[..|s| - 1]) == Strip(s)
  {
    hide IsSpace;
    var t := s[..|s| - 1];
    if IsSpace(s[0]) {
      if |s| > 1 {
        assert t[0] == s[0] && t[1..] == s[1..][..|s[1..]| - 1];
        StripDropsLast(s[1..]);
      } else {
        assert t == "" && s[1..] == "";
      }
    } else {
      assert |s| > 1 && t[0] == s[0];
    }
  }

  // ---- The entries above the lists --------------------------------------------------------------------------------

  /** What the entry itself reads as. */
  function OwnEntry(a: Acceptance, h: Heading): Option<Value> { CoerceEntry(Strip(HeadingText(a, h))) }

  lemma CaptionIsField(h: Heading)
    ensures IsFieldName(Caption(h))
  {
    CaptionShape(h);
    hide Caption, IsNameText, CaptionMark;
  }

  lemma HeadingReads(m: map<Heading, Value>, a: Acceptance, h: Heading)
    ensures ReadMatterLine(m, Entry(Caption(h), HeadingText(a, h))) ==
      match OwnEntry(a, h) case None => None case Some(v) => Some(m[h := v])
    ensures !IsRule(Entry(Caption(h), HeadingText(a, h)))
  {
    hide Caption, HeadingText, CoerceEntry, Strip, ReadMatterLine, HEADINGS, IsNameText;
    CaptionIsField(h);
    EntryReads(m, Caption(h), HeadingText(a, h));
    FindCaption(h);
  }

  lemma {:induction false} HeadingsRead(m: map<Heading, Value>, a: Acceptance, hs: seq<Heading>, h: Heading)
    ensures ReadMatterLines(m, HeadingLines(a, hs)).None? <==> exists g :: g in hs && OwnEntry(a, g).None?
    ensures ReadMatterLines(m, HeadingLines(a, hs)).Some? ==>
              Lookup(ReadMatterLines(m, HeadingLines(a, hs)).value, h) == if h in hs then OwnEntry(a, h) else Lookup(m, h)
    ensures forall line :: line in HeadingLines(a, hs) ==> !IsRule(line)
    decreases |hs|
  {
    hide Caption, HeadingText, OwnEntry, ReadMatterLine, IsRule, Entry;
    if hs != [] {
      var line := Entry(Caption(hs[0]), HeadingText(a, hs[0]));
      HeadingReads(m, a, hs[0]);
      assert HeadingLines(a, hs)[0] == line && HeadingLines(a, hs)[1..] == HeadingLines(a, hs[1..]);
      HeadingsRead(if OwnEntry(a, hs[0]).Some? then m[hs[0] := OwnEntry(a, hs[0]).value] else m, a, hs[1..], h);
    }
  }

  // ---- Lines that say nothing --------------------------------------------------------------------------------------

  predicate IsSilent(line: string) { !IsRule(line) && ReadMatterLine(map[], line) == Some(map[]) }

  lemma StripIndent(s: string)
    ensures Strip("  " + s) == Strip(s)
  {
    assert "  " + s == " " + (" " + s);
    StripPad(s);
    StripPad(" " + s);
  }

  lemma IndentedReads(line: string)
    ensures IsSilent("  " + line) <==> IsSilent(line)
  {
    StripIndent(line);
    hide Strip, Partition, CoerceEntry, FindHeading, IsMatterEntry;
  }

  lemma BareEntry(name: string)
    requires IsFieldName(name)
    ensures IsSilent(name + ":") <==> IsSilent(Entry(name, ""))
  {
    hide Strip, Partition, CoerceEntry, FindHeading, IsMatterEntry, IsFieldName, HEADINGS;
    BareStrips(name);
  }

  lemma BareStrips(name: string)
    requires IsFieldName(name)
    ensures Strip(name + ":") == Strip(Entry(name, ""))
  {
    hide IsSpace, IsNameText, Strip;
    NameIsEntry(name);
    var s := name + ":";
    assert Entry(name, "") == s + " " && (s + " ")[..|s + " "| - 1] == s;
    NotSpace();
    StripDropsLast(s + " ");
  }

  lemma SilentEntry(name: string, text: string)
    requires IsOther(name) && CoerceEntry(Strip(text)).Some?
    ensures IsSilent(Entry(name, text))
  {
    hide ReadMatterLine, CoerceEntry, Strip, FindHeading, HEADINGS, IsFieldName;
    EntryReads(map[], name, text);
  }

  /** The name of a line that is no entry of the record. */
  predicate IsOther(name: string) { IsFieldName(name) && FindHeading(name, HEADINGS) == None }

  lemma OwnerName()
    ensures IsOther("owner_approval")
  {
    hide FindHeading, HEADINGS;
    NoCaption("owner_approval");
  }

  lemma GateName()
    ensures IsOther("gate")
  {
    hide FindHeading, HEADINGS;
    NoCaption("gate");
  }

  lemma ApprovalIdsName()
    ensures IsOther("approval_ids")
  {
    hide FindHeading, HEADINGS;
    assert |"approval_ids"| == 12;
    NoCaption("approval_ids");
  }

  lemma ReferencesName()
    ensures IsOther("evidence_refs")
  {
    hide FindHeading, HEADINGS;
    NoCaption("evidence_refs");
  }

  lemma RisksName()
    ensures IsOther("residual_risks")
  {
    hide FindHeading, HEADINGS;
    assert |"residual_risks"| == 14 && "residual_risks"[0] == 'r';
    NoCaption("residual_risks");
  }

  lemma CreatedName()
    ensures IsOther("created_at")
  {
    hide FindHeading, HEADINGS;
    NoCaption("created_at");
  }

  lemma PlainValues()
    ensures CoerceEntry(Strip("")).Some? && CoerceEntry(Strip("none")).Some? && CoerceEntry(Strip("[]")).Some?
  {
    EmptyCoerces();
    StripKeeps("none");
    NoDigits("none");
    NoDigits("[]");
    hide Strip, IsDigits, Converted;
    assert "none"[0] == 'n' && "[]"[0] == '[' && Strip("") == "" by { StripKeeps(""); }
  }

  lemma ApprovalIsSilent()
    ensures forall line :: line in APPROVAL_LINES ==> IsSilent(line) && IsUnbroken(line) && NoReturnAtEnd(line)
  {
    hide IsSilent, FindHeading, HEADINGS, CoerceEntry, Strip, IsFieldName;
    OwnerName();
    GateName();
    ApprovalIdsName();
    PlainValues();
    BareEntry("owner_approval");
    SilentEntry("owner_approval", "");
    SilentEntry("gate", "none");
    SilentEntry("approval_ids", "[]");
    IndentedReads(Entry("gate", "none"));
    IndentedReads(Entry("approval_ids", "[]"));
    ApprovalSpelled();
    hide IsUnbroken, NoReturnAtEnd;
  }

  lemma ApprovalSpelled()
    ensures "owner_approval" + ":" == APPROVAL_LINES[0]
    ensures "  " + Entry("gate", "none") == APPROVAL_LINES[1] && "  " + Entry("approval_ids", "[]") == APPROVAL_LINES[2]
    ensures forall line :: line in APPROVAL_LINES ==> IsUnbroken(line) && NoReturnAtEnd(line)
  {
  }

  lemma {:induction false} SilentLines(m: map<Heading, Value>, lines: seq<string>)
    requires forall line :: line in lines ==> IsSilent(line)
    ensures ReadMatterLines(m, lines) == Some(m)
    decreases |lines|
  {
    hide ReadMatterLine, IsRule;
    if lines != [] {
      assert IsSilent(lines[0]);
      MatterLineIndependent(m, lines[0]);
      assert m + map[] == m;
      SilentLines(m, lines[1..]);
    }
  }

  // ---- The whole record --------------------------------------------------------------------------------------------

  /** The lines of the lists and the time, as they are split on reading, up to the first rule among them. */
  function CutTail(a: Acceptance): seq<string> {
    var tail := AllPieces(LowerLines(a));
    tail[..Fence(tail, 0)]
  }

  /** What these lines claim for an entry. */
  function ClaimedEntry(a: Acceptance, h: Heading): Option<Value> {
    if MatterAlone(CutTail(a)).Some? then Lookup(MatterAlone(CutTail(a)).value, h) else None
  }

  /** The entries stand on one line each. */
  predicate Headed(a: Acceptance) { forall h :: IsUnbroken(HeadingText(a, h)) }

  /** As the constructors demand: no reference and no risk ends in a line break. */
  predicate Listed(a: Acceptance) {
    (forall t :: t in a.evidenceRefs ==> IsReferenceText(t.text)) && forall t :: t in a.notes.residualRisks ==> IsReferenceText(t.text)
  }

  lemma FenceAt(lines: seq<string>, i: nat, n: nat)
    requires i <= n < |lines| && IsRule(lines[n]) && forall j :: i <= j < n ==> !IsRule(lines[j])
    ensures Fence(lines, i) == n
  {
    hide IsRule;
  }

  lemma FenceFound(tail: seq<string>)
    requires tail != [] && IsRule(tail[|tail| - 1])
    ensures Fence(tail, 0) < |tail|
  {
    hide IsRule;
  }

  lemma MatterOfFront(rule: string, upper: seq<string>, tail: seq<string>, n: nat)
    requires IsRule(rule) && n < |tail| && IsRule(tail[n]) && forall j :: 0 <= j < n ==> !IsRule(tail[j])
    requires forall j :: 0 <= j < |upper| ==> !IsRule(upper[j])
    ensures var front, end := [rule] + upper + tail, 1 + |upper| + n;
      && IsRule(front[0]) && IsRule(front[end]) && front[1..end] == upper + tail[..n]
      && forall j :: 1 <= j < end ==> !IsRule(front[j])
  {
    hide IsRule;
    var front, end := [rule] + upper + tail, 1 + |upper| + n;
    assert front[1..end] == upper + tail[..n];
    forall j | 1 <= j < end ensures !IsRule(front[j]) {
      assert front[j] == (upper + tail[..n])[j - 1];
    }
  }

  /** Whatever follows, reading goes from the first rule to the second. */
  lemma MatterOf(lines: seq<string>, upper: seq<string>, tail: seq<string>)
    requires |lines| >= 1 + |upper| + |tail| && lines[..1 + |upper| + |tail|] == ["---"] + upper + tail
    requires (forall line :: line in upper ==> !IsRule(line)) && tail != [] && IsRule(tail[|tail| - 1]) && IsRule("---")
    ensures Fence(tail, 0) < |tail|
    ensures var end := Fence(lines, 1);
      && IsRule(lines[0]) && end < |lines| && lines[1..end] == upper + tail[..Fence(tail, 0)]
  {
    hide IsRule, Fence;
    var front := ["---"] + upper + tail;
    FenceFound(tail);
    forall j | 0 <= j < |upper| ensures !IsRule(upper[j]) { assert upper[j] in upper; }
    MatterOfFront("---", upper, tail, Fence(tail, 0));
    var end := 1 + |upper| + Fence(tail, 0);
    assert forall j :: 0 <= j <= end ==> lines[j] == lines[..|front|][j];
    FenceAt(lines, 1, end);
    assert lines[1..end] == lines[..|front|][1..end];
  }

  function UpperLines(a: Acceptance): seq<string> { HeadingLines(a, HEADINGS) + APPROVAL_LINES }

  lemma {:induction false} HeadingLinesUnbroken(a: Acceptance, hs: seq<Heading>)
    requires Headed(a)
    ensures forall line :: line in HeadingLines(a, hs) ==> IsUnbroken(line)
  {
    hide IsUnbroken, HeadingText, Caption, Entry;
    if hs != [] {
      CaptionIsField(hs[0]);
      EntryUnbroken(Caption(hs[0]), HeadingText(a, hs[0]));
      HeadingLinesUnbroken(a, hs[1..]);
    }
  }

  lemma EntryUnbroken(name: string, text: string)
    requires IsFieldName(name) && IsUnbroken(text)
    ensures IsUnbroken(Entry(name, text))
  {
    var line := Entry(name, text);
    assert !IsBreak(':') && !IsBreak(' ') && forall c :: 'a' <= c <= 'z' || c == '_' ==> !IsBreak(c);
    hide IsBreak;
    forall i | 0 <= i < |line| ensures !IsBreak(line[i]) {
      if i < |name| { assert line[i] == name[i]; } else if i >= |name| + 2 { assert line[i] == text[i - |name| - 2]; }
    }
  }

  lemma UnbrokenEnd(s: string)
    requires IsUnbroken(s)
    ensures NoReturnAtEnd(s)
  {
    ReturnBreaks();
    hide IsBreak;
  }

  lemma LowerEnds(a: Acceptance)
    requires Listed(a)
    ensures forall line :: line in LowerLines(a) ==> NoReturnAtEnd(line)
  {
    hide TimeText, IsReferenceText;
    BulletsEnd(a.evidenceRefs);
    BulletsEnd(a.notes.residualRisks);
    NamesEnd();
    TimeEnds(a.createdAt);
    hide Bullets, NoReturnAtEnd, Entry;
  }

  lemma NamesEnd()
    ensures NoReturnAtEnd("evidence_refs" + ":") && NoReturnAtEnd("evidence_refs" + ": []") && NoReturnAtEnd("---")
    ensures NoReturnAtEnd("residual_risks" + ":") && NoReturnAtEnd("residual_risks" + ": []")
  {
  }

  lemma TimeEnds(t: Instant)
    ensures NoReturnAtEnd(Entry("created_at", TimeText(t)))
  {
    var s := TimeText(t);
    assert |s| == 20 && s[19] == 'Z';
    hide TimeText;
    var line := Entry("created_at", s);
    assert line[|line| - 1] == s[19];
  }

  lemma BulletsEnd(items: seq<Text>)
    requires forall t :: t in items ==> IsReferenceText(t.text)
    ensures forall line :: line in Bullets(items, "  ") ==> NoReturnAtEnd(line)
  {
    ReturnBreaks();
    hide IsSpace;
    forall line | line in Bullets(items, "  ") ensures NoReturnAtEnd(line) {
      var i :| 0 <= i < |items| && line == "  " + "- " + items[i].text;
      assert items[i] in items;
      assert line[|line| - 1] == items[i].text[|items[i].text| - 1];
    }
  }

  lemma RuleIsRule()
    ensures IsRule("---") && IsUnbroken("---")
  {
    NotSpace();
    StripKeeps("---");
  }

  lemma TailEnds(a: Acceptance)
    ensures AllPieces(LowerLines(a)) != [] && AllPieces(LowerLines(a))[|AllPieces(LowerLines(a))| - 1] == "---"
  {
    var front := ListLines("evidence_refs", a.evidenceRefs) + ListLines("residual_risks", a.notes.residualRisks)
                 + [Entry("created_at", TimeText(a.createdAt))];
    assert LowerLines(a) == front + ["---"];
    hide LowerLines, ListLines, Pieces;
    AllPiecesConcat(front, ["---"]);
    RuleIsRule();
    PiecesUnbroken("---");
    assert ["---"][1..] == [];
    assert AllPieces(["---"]) == ["---"];
  }

  /** The lines of a record as they are split on reading, up to the end of its front matter. */
  lemma LinesOfRecord(a: Acceptance)
    requires Headed(a) && Listed(a)
    ensures var front := ["---"] + UpperLines(a) + AllPieces(LowerLines(a));
      |BreakLines(RecordText(a))| >= |front| && BreakLines(RecordText(a))[..|front|] == front
  {
    hide Pieces, AllPieces, UpperLines, LowerLines, BodyLines, Lines, Headed, Listed, IsUnbroken, NoReturnAtEnd;
    FrontIs(a);
    FrontEnds(a);
    BodyIs(a);
    PiecesOfLines(FrontLines(a), BodyLines(a));
    FrontPieces(a);
    hide FrontLines;
    var ps, front := Pieces(RecordText(a)), AllPieces(FrontLines(a));
    assert ps[..|front|] == front;
  }

  lemma FrontIs(a: Acceptance)
    ensures FrontLines(a) == ["---"] + UpperLines(a) + LowerLines(a)
  {
    hide HeadingLines, LowerLines, APPROVAL_LINES, HEADINGS;
    assert ["---"] + HeadingLines(a, HEADINGS) + APPROVAL_LINES == ["---"] + (HeadingLines(a, HEADINGS) + APPROVAL_LINES);
  }

  lemma BodyIs(a: Acceptance)
    ensures BodyLines(a) != []
  {
    hide Numbered, Bullets;
    assert BodyLines(a)[0] == "";
  }

  lemma UpperUnbroken(a: Acceptance)
    requires Headed(a)
    ensures forall line :: line in UpperLines(a) ==> IsUnbroken(line) && NoReturnAtEnd(line)
  {
    hide HeadingLines, HEADINGS, IsUnbroken, NoReturnAtEnd, Headed, APPROVAL_LINES, IsSilent;
    HeadingLinesUnbroken(a, HEADINGS);
    ApprovalIsSilent();
    forall line | line in UpperLines(a) ensures IsUnbroken(line) && NoReturnAtEnd(line) {
      assert line in HeadingLines(a, HEADINGS) || line in APPROVAL_LINES;
      UnbrokenEnd(line);
    }
  }

  lemma FrontEnds(a: Acceptance)
    requires Headed(a) && Listed(a)
    ensures forall line :: line in FrontLines(a) ==> NoReturnAtEnd(line)
  {
    hide UpperLines, LowerLines, IsUnbroken, NoReturnAtEnd, Headed, Listed, FrontLines;
    FrontIs(a);
    UpperUnbroken(a);
    LowerEnds(a);
    NamesEnd();
  }

  lemma FrontPieces(a: Acceptance)
    requires Headed(a)
    ensures AllPieces(FrontLines(a)) == ["---"] + UpperLines(a) + AllPieces(LowerLines(a))
  {
    hide UpperLines, LowerLines, IsUnbroken, NoReturnAtEnd, Headed, FrontLines, Pieces;
    FrontIs(a);
    UpperUnbroken(a);
    RuleIsRule();
    AllUnbroken(["---"] + UpperLines(a));
    AllPiecesConcat(["---"] + UpperLines(a), LowerLines(a));
  }

  lemma UpperRead(a: Acceptance, h: Heading)
    ensures (forall line :: line in UpperLines(a) ==> !IsRule(line))
    ensures MatterAlone(UpperLines(a)).None? <==> exists g :: OwnEntry(a, g).None?
    ensures MatterAlone(UpperLines(a)).Some? ==> Lookup(MatterAlone(UpperLines(a)).value, h) == OwnEntry(a, h)
  {
    hide HeadingLines, HEADINGS, IsRule, OwnEntry, ReadMatterLines, APPROVAL_LINES, ReadMatterLine;
    HeadingsRead(map[], a, HEADINGS, h);
    ApprovalIsSilent();
    MatterConcat(map[], HeadingLines(a, HEADINGS), APPROVAL_LINES);
    if MatterAlone(HeadingLines(a, HEADINGS)).Some? { SilentLines(MatterAlone(HeadingLines(a, HEADINGS)).value, APPROVAL_LINES); }
    forall g ensures g in HEADINGS { AllHeadings(g); }
  }

  /** A record is read as its entries say, except where a line of its lists claims otherwise; it cannot be read exactly if
      an entry or such a line does not convert. */
  lemma RecordReads(a: Acceptance, h: Heading)
    requires Headed(a) && Listed(a)
    ensures ReadRecord(a) == ReadMatter(RecordText(a)) && !ReadRecord(a).NoMatter?
    ensures ReadRecord(a).BrokenMatter? <==> (exists g :: OwnEntry(a, g).None?) || MatterAlone(CutTail(a)).None?
    ensures ReadRecord(a).Matter? ==> Lookup(ReadRecord(a).entries, h) == Later(OwnEntry(a, h), ClaimedEntry(a, h))
  {
    hide UpperLines, LowerLines, Headed, Listed, RecordText, BreakLines, AllPieces, IsRule, OwnEntry, ReadMatterLines, Fence, Lookup;
    TranslationKeepsLines(RecordText(a));
    LinesOfRecord(a);
    TailEnds(a);
    RuleIsRule();
    UpperRead(a, h);
    var lines, upper, tail := BreakLines(RecordText(a)), UpperLines(a), AllPieces(LowerLines(a));
    MatterOf(lines, upper, tail);
    MatterConcat(map[], upper, CutTail(a));
    if MatterAlone(upper).Some? {
      MatterIndependent(MatterAlone(upper).value, CutTail(a));
      if MatterAlone(CutTail(a)).Some? { LookupSum(MatterAlone(upper).value, MatterAlone(CutTail(a)).value, h); }
    }
  }

  lemma LookupSum(m: map<Heading, Value>, n: map<Heading, Value>, h: Heading)
    ensures Lookup(m + n, h) == Later(Lookup(m, h), Lookup(n, h))
  {
  }

  lemma TranslationKeepsLines(s: string)
    ensures BreakLines(Translated(s)) == BreakLines(s) && ReadMatter(Translated(s)) == ReadMatter(s)
  {
    PiecesTranslated(s);
    assert BreakLines(Translated(s)) == BreakLines(s);
    hide BreakLines, ReadMatterLines, IsRule, Fence;
  }
}
