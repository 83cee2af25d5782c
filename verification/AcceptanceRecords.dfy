/** Exactly which acceptance records come back as they were written. */
module AcceptanceRecords {
  import opened Wrappers
  import opened Texts
  import opened Approvals
  import opened Ledger
  import opened Events
  import opened EventReader
  import opened EventLines
  import opened EventGuards
  import opened EventReading
  import opened EventRecovery
  import opened EventFiles
  import opened AcceptanceFiles
  import opened AcceptanceReading
  import Decimal

  // ---- What the entries read as ------------------------------------------------------------------------------------

  /** Text that fools nobody into a number that cannot be converted. */
  predicate EntryConverts(s: string) {
    && (IsDigits(s) ==> IsCountable(s))
    && (s != "" && s[0] == '-' && IsDigits(s[1..]) ==> IsCountable(s[1..]))
  }

  /** Text that is read as itself. */
  predicate EntryKept(s: string) {
    && s != "null" && s != "true" && s != "false" && !IsDigits(s) && !(s != "" && s[0] == '-' && IsDigits(s[1..]))
  }

  lemma WordConverts()
    ensures !IsDigits("null") && !IsDigits("true") && !IsDigits("false")
    ensures "null"[0] != '-' && "true"[0] != '-' && "false"[0] != '-'
  {
    NoDigits("null");
    NoDigits("true");
    NoDigits("false");
    hide IsDigits;
  }

  lemma CoerceEntryExactly(s: string)
    ensures CoerceEntry(s).Some? <==> EntryConverts(s)
    ensures CoerceEntry(s) == Some(Words(s)) <==> EntryKept(s)
    ensures CoerceEntry(s).Some? && CoerceEntry(s).value.Words? ==> CoerceEntry(s).value.text == s
  {
    hide IsDigits, IsCountable, NumberOf;
    WordConverts();
    if s != "" && s[0] == '-' { NoDigits(s); }
  }

  lemma EntryNumber(n: int)
    ensures CoerceEntry(Strip(PrintInt(n))) == if IsShort(n) then Some(Number(n)) else None
  {
    hide IsDigits, IsDecimals, Decimal.Print, Stripped, Strip, NumberOf, CoerceEntry;
    var s := Decimal.Print(if n < 0 then -n else n);
    DecimalDigits(s);
    NumberOfDecimal(s);
    Decimal.ParsePrint(if n < 0 then -n else n);
    if n < 0 {
      NegativeShape(s);
      EntrySigned("-" + s);
    } else {
      StripKeeps(s);
      DigitsAreNoWord(s);
      EntryDigits(s);
    }
  }

  lemma EntryDigits(s: string)
    requires IsDigits(s) && s != "null" && s != "true" && s != "false"
    ensures CoerceEntry(s) == Converted(s, 1)
  {
    hide IsDigits, Converted;
  }

  lemma EntrySigned(s: string)
    requires s != "" && s[0] == '-' && !IsDigits(s) && IsDigits(s[1..])
    ensures CoerceEntry(s) == Converted(s[1..], -1)
  {
    hide IsDigits, Converted;
    WordConverts();
  }

  lemma DigitsAreNoWord(s: string)
    requires IsDigits(s)
    ensures s != "null" && s != "true" && s != "false"
  {
    hide IsDigits;
    WordConverts();
  }

  /** What the constructors enforce of the texts of a record; its entries stand on one line each. */
  predicate SpelledRecord(a: Acceptance) {
    && IsTaskIdText(a.taskId.text) && IsSafeText(a.reviewedDispatch.text) && IsShaText(a.baseCommit.text)
    && IsShaText(a.acceptedCommit.text) && (a.implementation.Some? ==> IsShaText(a.implementation.value.text))
    && (a.report.Some? ==> IsShaText(a.report.value.text)) && Headed(a) && Listed(a)
  }

  /** The free texts and the numbers of the entries convert. */
  predicate RecordConverts(a: Acceptance) {
    && EntryConverts(a.reviewedDispatch.text) && EntryConverts(Strip(a.cardType.text)) && EntryConverts(Strip(a.role.text))
    && EntryConverts(Strip(a.reviewer.text)) && IsShort(a.revision) && IsShort(a.attempt) && IsShort(a.leaseEpoch)
  }

  lemma ShaIsStripped(s: string)
    requires IsShaText(s)
    ensures Stripped(s) && Strip(s) == s && s[0] != '-' && s != "null" && s != "true" && s != "false"
    ensures IsDigits(s) ==> IsCountable(s)
  {
    assert |"null"| == 4 && |"true"| == 4 && |"false"| == 5;
    StripKeeps(s);
    if IsDigits(s) {
      forall i | 0 <= i < |s| ensures IsDecimalChar(s[i]) { DigitIsPlain(s[i]); }
    }
    hide Strip, IsDigitChar, InDecimalRow;
  }

  lemma EntrySha(s: string)
    requires IsShaText(s)
    ensures CoerceEntry(Strip(s)).Some? && (CoerceEntry(Strip(s)) == Some(Words(s)) <==> !IsDigits(s))
  {
    hide IsShaText, Strip, Stripped, IsDigits, IsCountable, CoerceEntry;
    ShaIsStripped(s);
    CoerceEntryExactly(s);
  }

  lemma EntryLetters(s: string)
    requires s != "" && Stripped(s) && ('A' <= s[0] <= 'Z' || s[0] == 'a')
    ensures CoerceEntry(Strip(s)) == Some(Words(s))
  {
    hide Strip, Stripped, IsDigits, CoerceEntry;
    StripKeeps(s);
    NoDigits(s);
    WordConverts();
    CoerceEntryExactly(s);
    assert "null"[0] == 'n' && "true"[0] == 't' && "false"[0] == 'f';
  }

  lemma LiteralEntries()
    ensures CoerceEntry(Strip(RECORD_SCHEMA)) == Some(Words(RECORD_SCHEMA)) && CoerceEntry(Strip("PM")) == Some(Words("PM"))
    ensures CoerceEntry(Strip("accepted")) == Some(Words("accepted"))
    ensures CoerceEntry(Strip("null")) == Some(Nothing)
  {
    hide CoerceEntry, Strip;
    LiteralShapes();
    EntryLetters(RECORD_SCHEMA);
    EntryLetters("PM");
    EntryLetters("accepted");
    NullEntry();
  }

  lemma LiteralShapes()
    ensures Stripped(RECORD_SCHEMA) && RECORD_SCHEMA[0] == 'a' && Stripped("PM") && "PM"[0] == 'P'
    ensures Stripped("accepted") && "accepted"[0] == 'a'
  {
  }

  lemma NullEntry()
    ensures CoerceEntry(Strip("null")) == Some(Nothing)
  {
    EmptyCoerces();
    hide Strip;
  }

  /** The entries that the checks look at. */
  lemma OwnEntries(a: Acceptance)
    requires SpelledRecord(a)
    ensures OwnEntry(a, SchemaHeading) == Some(Words(RECORD_SCHEMA)) && OwnEntry(a, DecisionHeading) == Some(Words("accepted"))
    ensures OwnEntry(a, ReviewerRoleHeading) == Some(Words("PM")) && OwnEntry(a, TaskHeading) == Some(Words(a.taskId.text))
    ensures OwnEntry(a, RevisionHeading) == if IsShort(a.revision) then Some(Number(a.revision)) else None
    ensures OwnEntry(a, AttemptHeading) == if IsShort(a.attempt) then Some(Number(a.attempt)) else None
    ensures OwnEntry(a, AcceptedHeading).Some?
    ensures OwnEntry(a, AcceptedHeading) == Some(Words(a.acceptedCommit.text)) <==> !IsDigits(a.acceptedCommit.text)
    ensures OwnEntry(a, DispatchHeading) == CoerceEntry(a.reviewedDispatch.text)
  {
    hide CoerceEntry, Strip, PrintInt, IsShort, IsShaText, IsDigits, Headed, Listed, RECORD_SCHEMA;
    LiteralEntries();
    TaskIdWord(a.taskId.text);
    EntryLetters(a.taskId.text);
    EntryNumber(a.revision);
    EntryNumber(a.attempt);
    EntrySha(a.acceptedCommit.text);
    StripKeeps(a.reviewedDispatch.text);
  }

  lemma CommitEntries(a: Acceptance)
    requires SpelledRecord(a)
    ensures OwnEntry(a, BaseHeading).Some? && OwnEntry(a, ImplementationHeading).Some? && OwnEntry(a, ReportHeading).Some?
    ensures OwnEntry(a, LeaseHeading).Some? <==> IsShort(a.leaseEpoch)
  {
    hide CoerceEntry, Strip, PrintInt, IsShort, IsShaText, Headed, Listed;
    EntrySha(a.baseCommit.text);
    EntryNumber(a.leaseEpoch);
    CommitEntry(a.implementation);
    CommitEntry(a.report);
  }

  lemma FreeEntries(a: Acceptance)
    requires SpelledRecord(a)
    ensures OwnEntry(a, TypeHeading).Some? <==> EntryConverts(Strip(a.cardType.text))
    ensures OwnEntry(a, RoleHeading).Some? <==> EntryConverts(Strip(a.role.text))
    ensures OwnEntry(a, ReviewerHeading).Some? <==> EntryConverts(Strip(a.reviewer.text))
    ensures OwnEntry(a, DispatchHeading).Some? <==> EntryConverts(a.reviewedDispatch.text)
  {
    hide CoerceEntry, Strip, EntryConverts, Headed, Listed, EntryKept;
    CoerceEntryExactly(Strip(a.cardType.text));
    CoerceEntryExactly(Strip(a.role.text));
    CoerceEntryExactly(Strip(a.reviewer.text));
    CoerceEntryExactly(a.reviewedDispatch.text);
    StripKeeps(a.reviewedDispatch.text);
  }

  lemma CommitEntry(c: Option<Commit>)
    requires c.Some? ==> IsShaText(c.value.text)
    ensures CoerceEntry(Strip(OptionalCommit(c))).Some?
  {
    hide CoerceEntry, Strip, IsShaText;
    if c.Some? { EntrySha(c.value.text); } else { NullEntry(); }
  }

  lemma EntriesConvert(a: Acceptance)
    requires SpelledRecord(a)
    ensures (exists g :: OwnEntry(a, g).None?) <==> !RecordConverts(a)
  {
    hide OwnEntry, Strip, EntryConverts, IsShort, SpelledRecord;
    OwnEntries(a);
    CommitEntries(a);
    FreeEntries(a);
    if exists g :: OwnEntry(a, g).None? {
      var g :| OwnEntry(a, g).None?;
      hide RecordConverts;
      BreakingEntry(a, g);
    }
  }

  lemma BreakingEntry(a: Acceptance, g: Heading)
    requires SpelledRecord(a) && OwnEntry(a, g).None?
    ensures !RecordConverts(a)
  {
    hide OwnEntry, Strip, EntryConverts, IsShort, SpelledRecord;
    OwnEntries(a);
    CommitEntries(a);
    FreeEntries(a);
  }

  // ---- Exactly which records come back ------------------------------------------------------------------------------

  /** No line of the lists claims another value for the entry. */
  predicate Undisputed(a: Acceptance, h: Heading) {
    ClaimedEntry(a, h).None? || ClaimedEntry(a, h) == OwnEntry(a, h)
  }

  /** The writer finds its own record in order exactly if everything in it converts and no line of its lists claims another
      schema, task, decision or reviewer role. */
  lemma WrittenExactly(a: Acceptance)
    requires SpelledRecord(a)
    ensures var r := ReadMatter(RecordText(a));
      r.Matter? && MatterFits(r.entries, a.taskId) <==>
        && RecordConverts(a) && MatterAlone(CutTail(a)).Some?
        && Undisputed(a, SchemaHeading) && Undisputed(a, TaskHeading) && Undisputed(a, DecisionHeading)
        && Undisputed(a, ReviewerRoleHeading)
    ensures !ReadMatter(RecordText(a)).NoMatter?
    ensures ReadMatter(RecordText(a)).BrokenMatter? <==> !RecordConverts(a) || MatterAlone(CutTail(a)).None?
  {
    hide ReadMatter, RecordText, RecordConverts, CutTail, OwnEntry, ClaimedEntry, Undisputed, IsShort, IsDigits, MatterAlone, MatterFits, Lookup;
    SpelledIsHeaded(a);
    EntriesConvert(a);
    var r := ReadMatter(RecordText(a));
    RecordReads(a, SchemaHeading);
    if r.Matter? {
      forall h ensures OwnEntry(a, h).Some? && SaysEntry(a, r.entries, h) {
        RecordReads(a, h);
      }
      MatterFitsExactly(a, r.entries);
    }
  }

  predicate SaysEntry(a: Acceptance, m: map<Heading, Value>, h: Heading) {
    Lookup(m, h) == Later(OwnEntry(a, h), ClaimedEntry(a, h))
  }

  lemma MatterFitsExactly(a: Acceptance, m: map<Heading, Value>)
    requires SpelledRecord(a) && forall h :: OwnEntry(a, h).Some? && SaysEntry(a, m, h)
    ensures MatterFits(m, a.taskId) <==>
      && Undisputed(a, SchemaHeading) && Undisputed(a, TaskHeading) && Undisputed(a, DecisionHeading)
      && Undisputed(a, ReviewerRoleHeading)
  {
    hide OwnEntry, ClaimedEntry, RECORD_SCHEMA, IsShort, IsDigits;
    OwnEntries(a);
    hide SpelledRecord;
    forall h ensures h in m { assert SaysEntry(a, m, h); }
    assert SaysEntry(a, m, SchemaHeading) && SaysEntry(a, m, TaskHeading) && SaysEntry(a, m, DecisionHeading);
    assert SaysEntry(a, m, ReviewerRoleHeading);
  }

  lemma SpelledIsHeaded(a: Acceptance)
    requires SpelledRecord(a)
    ensures Headed(a) && Listed(a)
  {
  }

  predicate CommitComesBack(a: Acceptance)
    requires ReadRecord(a).Matter?
  {
    Lookup(ReadRecord(a).entries, AcceptedHeading) == Some(Words(a.acceptedCommit.text))
  }

  predicate DispatchComesBack(a: Acceptance)
    requires ReadRecord(a).Matter?
  {
    Lookup(ReadRecord(a).entries, DispatchHeading) == Some(Words(a.reviewedDispatch.text))
  }

  /** The accepted commit comes back exactly if no line of the lists claims another one and it is not all digits. */
  lemma CommitExactly(a: Acceptance)
    requires SpelledRecord(a) && ReadRecord(a).Matter?
    ensures Lookup(ReadRecord(a).entries, AcceptedHeading) == Later(OwnEntry(a, AcceptedHeading), ClaimedEntry(a, AcceptedHeading))
    ensures ClaimedEntry(a, AcceptedHeading).None? ==>
              (CommitComesBack(a) <==> !IsDigits(a.acceptedCommit.text))
    ensures ClaimedEntry(a, AcceptedHeading).Some? ==>
              (CommitComesBack(a) <==> ClaimedEntry(a, AcceptedHeading) == Some(Words(a.acceptedCommit.text)))
  {
    hide ReadRecord, CutTail, OwnEntry, ClaimedEntry, IsDigits, SpelledRecord, RECORD_SCHEMA;
    SpelledIsHeaded(a);
    RecordReads(a, AcceptedHeading);
    OwnEntries(a);
  }

  /** The reviewed dispatch comes back exactly if no line of the lists claims another one and it is no number and none of
      the three words that are converted. */
  lemma DispatchExactly(a: Acceptance)
    requires SpelledRecord(a) && ReadRecord(a).Matter?
    ensures Lookup(ReadRecord(a).entries, DispatchHeading) == Later(OwnEntry(a, DispatchHeading), ClaimedEntry(a, DispatchHeading))
    ensures ClaimedEntry(a, DispatchHeading).None? ==> (DispatchComesBack(a) <==> EntryKept(a.reviewedDispatch.text))
    ensures ClaimedEntry(a, DispatchHeading).Some? ==>
              (DispatchComesBack(a) <==> ClaimedEntry(a, DispatchHeading) == Some(Words(a.reviewedDispatch.text)))
  {
    hide ReadRecord, CutTail, OwnEntry, ClaimedEntry, IsDigits, SpelledRecord, EntryKept, CoerceEntry, RECORD_SCHEMA, IsShort;
    SpelledIsHeaded(a);
    RecordReads(a, DispatchHeading);
    OwnEntries(a);
    CoerceEntryExactly(a.reviewedDispatch.text);
  }

  // ---- Lists on one line each ---------------------------------------------------------------------------------------

  predicate OnLines(items: seq<Text>) { forall t :: t in items ==> IsReferenceText(t.text) && IsUnbroken(t.text) }

  /** What follows the first colon of a reference or a risk can be converted. */
  predicate BulletConverts(s: string) { ':' in s ==> EntryConverts(Partition(s).1) }

  /** A line that says nothing if it can be read. */
  predicate IsNeutral(line: string) {
    !IsRule(line) && (ReadMatterLine(map[], line).Some? ==> ReadMatterLine(map[], line).value == map[])
  }

  lemma ColonShift(s: string)
    ensures Colon("- " + s) == 2 + Colon(s)
  {
    assert ("- " + s)[1..] == " " + s && (" " + s)[1..] == s;
  }

  lemma BulletStrips(s: string)
    requires IsReferenceText(s)
    ensures Strip("  " + "- " + s) == "- " + s && "- " + s != "---"
  {
    NotSpace();
    hide IsSpace;
    StripKeeps("- " + s);
    assert "  " + ("- " + s) == "  " + "- " + s;
    StripIndent("- " + s);
    assert ("- " + s)[1] == ' ';
  }

  lemma BulletParts(s: string)
    requires IsReferenceText(s) && ':' in s
    ensures var (key, val) := Partition("- " + s); key != "" && key[0] == '-' && val == Partition(s).1
  {
    ColonShift(s);
    NotSpace();
    hide IsSpace, Strip, Colon;
    var t, n := "- " + s, Colon(s);
    assert t[..2 + n][0] == '-' && t[2 + n + 1..] == s[n + 1..];
    StripStops(t[..2 + n], 0);
    assert Strip(t[..2 + n])[0] == Strip(t[..2 + n])[..1][0];
  }

  lemma BulletReads(s: string)
    requires IsReferenceText(s)
    ensures IsNeutral("  " + "- " + s)
    ensures ReadMatterLine(map[], "  " + "- " + s).Some? <==> BulletConverts(s)
  {
    hide Strip, Partition, CoerceEntry, FindHeading, HEADINGS, EntryConverts, IsReferenceText;
    BulletStrips(s);
    assert ':' in "- " + s <==> ':' in s;
    if ':' in s {
      BulletParts(s);
      NoCaption(Partition("- " + s).0);
      CoerceEntryExactly(Partition(s).1);
    }
  }

  lemma {:induction false} NeutralLines(lines: seq<string>)
    requires forall line :: line in lines ==> IsNeutral(line)
    ensures MatterAlone(lines).None? <==> exists line :: line in lines && ReadMatterLine(map[], line).None?
    ensures MatterAlone(lines).Some? ==> MatterAlone(lines).value == map[]
    decreases |lines|
  {
    hide ReadMatterLine, IsRule;
    if lines != [] {
      assert IsNeutral(lines[0]);
      NeutralLines(lines[1..]);
      if ReadMatterLine(map[], lines[0]).Some? { MatterIndependent(ReadMatterLine(map[], lines[0]).value, lines[1..]); }
    }
  }

  lemma ListHeadings(name: string)
    requires IsOther(name) && IsUnbroken(name)
    ensures IsSilent(name + ":") && IsSilent(name + ": []") && IsUnbroken(name + ":") && IsUnbroken(name + ": []")
  {
    hide IsSilent, FindHeading, HEADINGS, CoerceEntry, Strip;
    PlainValues();
    SilentEntry(name, "");
    SilentEntry(name, "[]");
    BareEntry(name);
    assert Entry(name, "[]") == name + ": []";
    assert !IsBreak(':') && !IsBreak(' ') && !IsBreak('[') && !IsBreak(']');
    hide IsBreak, IsNameText;
  }

  /** The lines of a list whose items stand on one line each. */
  lemma ListReads(name: string, items: seq<Text>)
    requires IsOther(name) && IsUnbroken(name) && OnLines(items)
    ensures forall line :: line in ListLines(name, items) ==> IsUnbroken(line) && IsNeutral(line)
    ensures (exists line :: line in ListLines(name, items) && ReadMatterLine(map[], line).None?) <==>
              exists t :: t in items && !BulletConverts(t.text)
  {
    hide IsUnbroken, IsReferenceText, BulletConverts, IsRule, ReadMatterLine, FindHeading, HEADINGS, IsFieldName;
    ListHeadings(name);
    var bullets := Bullets(items, "  ");
    forall i | 0 <= i < |items|
      ensures IsUnbroken(bullets[i]) && IsNeutral(bullets[i])
      ensures ReadMatterLine(map[], bullets[i]).Some? <==> BulletConverts(items[i].text)
    {
      assert items[i] in items;
      BulletReads(items[i].text);
      BulletUnbroken(items[i].text);
    }
    if exists line :: line in bullets && ReadMatterLine(map[], line).None? {
      var i :| 0 <= i < |items| && ReadMatterLine(map[], bullets[i]).None?;
      assert items[i] in items;
    }
    if exists t :: t in items && !BulletConverts(t.text) {
      var i :| 0 <= i < |items| && !BulletConverts(items[i].text);
      assert bullets[i] in ListLines(name, items);
    }
  }

  lemma BulletUnbroken(s: string)
    requires IsUnbroken(s)
    ensures IsUnbroken("  " + "- " + s)
  {
    assert !IsBreak(' ') && !IsBreak('-');
    hide IsBreak;
  }

  lemma TimeEntry(t: Instant)
    ensures IsSilent(Entry("created_at", TimeText(t))) && IsUnbroken(Entry("created_at", TimeText(t)))
  {
    hide TimeText, IsTimeText, FindHeading, HEADINGS, IsSilent, CoerceEntry, Strip, IsUnbroken, IsFieldName;
    CreatedName();
    TimeConverts(TimeText(t));
    SilentEntry("created_at", TimeText(t));
    EntryUnbroken("created_at", TimeText(t));
  }

  lemma TimeConverts(s: string)
    requires IsTimeText(s)
    ensures CoerceEntry(Strip(s)).Some? && IsUnbroken(s)
  {
    TimeIsNoNumber(s);
    assert s[0] != '-';
    TimeUnbroken(s);
    hide IsDigits, IsTimeText, Strip, CoerceEntry, IsUnbroken;
    StripKeeps(s);
    CoerceEntryExactly(s);
    hide Stripped;
  }

  lemma TimeUnbroken(s: string)
    requires IsTimeText(s)
    ensures IsUnbroken(s)
  {
    assert !IsBreak('-') && !IsBreak(':') && !IsBreak('T') && !IsBreak('Z') && forall c :: '0' <= c <= '9' ==> !IsBreak(c);
    hide IsBreak;
  }

  /** Lists whose items stand on one line each claim nothing, and convert exactly if every item does. */
  lemma UnbrokenLists(a: Acceptance, h: Heading)
    requires OnLines(a.evidenceRefs) && OnLines(a.notes.residualRisks)
    ensures ClaimedEntry(a, h).None?
    ensures MatterAlone(CutTail(a)).Some? <==>
              (forall t :: t in a.evidenceRefs ==> BulletConverts(t.text))
              && forall t :: t in a.notes.residualRisks ==> BulletConverts(t.text)
  {
    hide TimeText, ListLines, OnLines, IsUnbroken, ReadMatterLine, IsRule, FindHeading, HEADINGS, BulletConverts, AllPieces, Entry, IsFieldName;
    ReferencesName();
    RisksName();
    ListNamesUnbroken();
    ListReads("evidence_refs", a.evidenceRefs);
    ListReads("residual_risks", a.notes.residualRisks);
    TimeEntry(a.createdAt);
    RuleIsRule();
    var refs, risks, created := ListLines("evidence_refs", a.evidenceRefs), ListLines("residual_risks", a.notes.residualRisks),
                                Entry("created_at", TimeText(a.createdAt));
    var front := refs + risks + [created];
    assert LowerLines(a) == front + ["---"];
    AllUnbroken(LowerLines(a));
    forall line | line in front ensures IsNeutral(line) { assert line in refs || line in risks || line == created; }
    NeutralLines(front);
    CutAt(front);
    assert CutTail(a) == front;
    assert ReadMatterLine(map[], created).Some?;
  }

  lemma CutAt(front: seq<string>)
    requires (forall line :: line in front ==> IsNeutral(line)) && IsRule("---")
    ensures var tail := front + ["---"]; tail[..Fence(tail, 0)] == front
  {
    hide IsRule, ReadMatterLine;
    var tail := front + ["---"];
    forall j | 0 <= j < |front| ensures !IsRule(tail[j]) { assert front[j] in front; }
    FenceAt(tail, 0, |front|);
    assert tail[..|front|] == front;
  }

  lemma ListNamesUnbroken()
    ensures IsUnbroken("evidence_refs") && IsUnbroken("residual_risks")
  {
  }

  // ---- A reference that claims another commit ------------------------------------------------------------------------

  /** The second line of this reference reads as the entry of the accepted commit. */
  function ForgingReference(front: string, commit: string): Text { Text(front + "\n" + Entry("accepted_commit", commit)) }

  lemma ForgedLines(a: Acceptance, front: string, commit: string)
    requires a.evidenceRefs == [ForgingReference(front, commit)] && a.notes.residualRisks == []
    requires IsReferenceText(front) && IsUnbroken(front) && IsShaText(commit)
    ensures AllPieces(LowerLines(a)) ==
      ["evidence_refs:", "  - " + front, Entry("accepted_commit", commit), "residual_risks: []",
       Entry("created_at", TimeText(a.createdAt)), "---"]
  {
    hide TimeText, IsUnbroken, Pieces, IsReferenceText, AllPieces, LowerLines, Entry, NoReturnAtEnd;
    var bullet, claim, created := "  " + "- " + front, Entry("accepted_commit", commit), Entry("created_at", TimeText(a.createdAt));
    ForgedLower(a, front, commit);
    ForgedUnbroken(front, commit);
    TimeEntry(a.createdAt);
    RuleIsRule();
    PiecesConcat(bullet, claim);
    PiecesUnbroken(bullet);
    PiecesUnbroken(claim);
    assert "evidence_refs" + ":" == "evidence_refs:" && "residual_risks" + ": []" == "residual_risks: []";
    assert "  " + "- " + front == "  - " + front;
    FivePieces("evidence_refs:", bullet + "\n" + claim, bullet, claim, "residual_risks: []", created, "---");
  }

  lemma ForgedLower(a: Acceptance, front: string, commit: string)
    requires a.evidenceRefs == [ForgingReference(front, commit)] && a.notes.residualRisks == []
    ensures LowerLines(a) ==
      ["evidence_refs:", "  " + "- " + front + "\n" + Entry("accepted_commit", commit), "residual_risks: []",
       Entry("created_at", TimeText(a.createdAt)), "---"]
  {
    hide TimeText, Entry;
    var bullet := "  " + "- " + front + "\n" + Entry("accepted_commit", commit);
    assert "  " + "- " + (front + "\n" + Entry("accepted_commit", commit)) == bullet;
    assert Bullets(a.evidenceRefs, "  ") == [bullet];
    assert ListLines("evidence_refs", a.evidenceRefs) == ["evidence_refs:", bullet] by { assert "evidence_refs" + ":" == "evidence_refs:"; }
    assert ListLines("residual_risks", []) == ["residual_risks: []"] by { assert "residual_risks" + ": []" == "residual_risks: []"; }
    hide ListLines, Bullets;
  }

  lemma FivePieces(a: string, b: string, b1: string, b2: string, c: string, d: string, e: string)
    requires IsUnbroken(a) && IsUnbroken(c) && IsUnbroken(d) && IsUnbroken(e) && Pieces(b) == [b1, b2]
    ensures AllPieces([a, b, c, d, e]) == [a, b1, b2, c, d, e]
  {
    hide IsUnbroken, Pieces;
    PiecesUnbroken(a);
    AllUnbroken([c, d, e]);
    assert [a, b, c, d, e][1..] == [b, c, d, e] && [b, c, d, e][1..] == [c, d, e];
    assert AllPieces([b, c, d, e]) == [b1, b2] + [c, d, e];
  }

  lemma ForgedUnbroken(front: string, commit: string)
    requires IsUnbroken(front) && IsShaText(commit)
    ensures IsUnbroken("  " + "- " + front) && IsUnbroken(Entry("accepted_commit", commit)) && NoReturnAtEnd("  " + "- " + front)
    ensures IsUnbroken("evidence_refs" + ":") && IsUnbroken("residual_risks" + ": []")
  {
    BulletUnbroken(front);
    UnbrokenEnd("  " + "- " + front);
    ShaUnbroken(commit);
    CaptionIsField(AcceptedHeading);
    EntryUnbroken(Caption(AcceptedHeading), commit);
  }

  lemma ShaUnbroken(s: string)
    requires IsShaText(s)
    ensures IsUnbroken(s)
  {
  }

  /** A record with that reference reads as if it accepted the other commit; the rest of it reads as it was written. */
  lemma ForgedCommit(a: Acceptance, front: string, commit: string, h: Heading)
    requires a.evidenceRefs == [ForgingReference(front, commit)] && a.notes.residualRisks == []
    requires IsReferenceText(front) && IsUnbroken(front) && BulletConverts(front) && IsShaText(commit) && !IsDigits(commit)
    ensures MatterAlone(CutTail(a)).Some?
    ensures ClaimedEntry(a, h) == if h.AcceptedHeading? then Some(Words(commit)) else None
  {
    hide TimeText, IsUnbroken, AllPieces, IsReferenceText, IsShaText, IsDigits, BulletConverts, IsRule, ReadMatterLine, HEADINGS, CoerceEntry, Strip,
      Entry, LowerLines;
    ForgedLines(a, front, commit);
    var bullet, claim, created := "  " + "- " + front, Entry("accepted_commit", commit), Entry("created_at", TimeText(a.createdAt));
    BulletReads(front);
    TimeEntry(a.createdAt);
    ForgedHeadings();
    ClaimReads(commit);
    RuleIsRule();
    var tail := ["evidence_refs:", bullet, claim, "residual_risks: []", created, "---"];
    assert "  " + "- " + front == "  - " + front;
    FenceAt(tail, 0, 5);
    assert CutTail(a) == ["evidence_refs:", bullet, claim, "residual_risks: []", created];
    ForgedReads("evidence_refs:", bullet, claim, "residual_risks: []", created, commit);
  }

  lemma ForgedHeadings()
    ensures IsSilent("evidence_refs:") && IsSilent("residual_risks: []")
  {
    hide IsSilent, FindHeading, HEADINGS, IsFieldName;
    ReferencesName();
    RisksName();
    ListNamesUnbroken();
    ListHeadings("evidence_refs");
    ListHeadings("residual_risks");
    assert "evidence_refs" + ":" == "evidence_refs:" && "residual_risks" + ": []" == "residual_risks: []";
  }

  lemma ClaimReads(commit: string)
    requires IsShaText(commit) && !IsDigits(commit)
    ensures ReadMatterLine(map[], Entry("accepted_commit", commit)) == Some(map[AcceptedHeading := Words(commit)])
    ensures !IsRule(Entry("accepted_commit", commit))
  {
    hide ReadMatterLine, FindHeading, HEADINGS, CoerceEntry, Strip, IsShaText, IsDigits;
    assert Caption(AcceptedHeading) == "accepted_commit";
    CaptionIsField(AcceptedHeading);
    EntryReads(map[], "accepted_commit", commit);
    FindCaption(AcceptedHeading);
    EntrySha(commit);
  }

  lemma ForgedReads(a: string, b: string, c: string, d: string, e: string, commit: string)
    requires IsSilent(a) && IsSilent(b) && IsSilent(d) && IsSilent(e)
    requires ReadMatterLine(map[], c) == Some(map[AcceptedHeading := Words(commit)])
    ensures MatterAlone([a, b, c, d, e]) == Some(map[AcceptedHeading := Words(commit)])
  {
    hide ReadMatterLine, IsRule;
    SilentLines(map[], [a, b]);
    SilentLines(map[AcceptedHeading := Words(commit)], [d, e]);
    assert [a, b, c, d, e] == [a, b] + ([c] + [d, e]);
    MatterConcat(map[], [a, b], [c] + [d, e]);
    assert ([c] + [d, e])[0] == c && ([c] + [d, e])[1..] == [d, e];
  }

  /** An entry that reads as text reads as its own. */
  lemma OwnWords(a: Acceptance)
    requires SpelledRecord(a)
    ensures OwnEntry(a, AcceptedHeading).Some? && OwnEntry(a, AcceptedHeading).value.Words? ==>
              OwnEntry(a, AcceptedHeading) == Some(Words(a.acceptedCommit.text))
    ensures OwnEntry(a, DispatchHeading).Some? && OwnEntry(a, DispatchHeading).value.Words? ==>
              OwnEntry(a, DispatchHeading) == Some(Words(a.reviewedDispatch.text))
  {
    hide CoerceEntry, Strip, EntryKept, EntryConverts, SpelledRecord, IsShaText, Stripped, IsDigits, IsCountable, PrintInt, RECORD_SCHEMA;
    SpelledTexts(a);
    ShaIsStripped(a.acceptedCommit.text);
    CoerceEntryExactly(a.acceptedCommit.text);
    CoerceEntryExactly(a.reviewedDispatch.text);
  }

  lemma SpelledTexts(a: Acceptance)
    requires SpelledRecord(a)
    ensures IsShaText(a.acceptedCommit.text) && Strip(a.reviewedDispatch.text) == a.reviewedDispatch.text
  {
    StripKeeps(a.reviewedDispatch.text);
    hide Strip, Headed, Listed, IsShaText;
  }

  // ---- Ordinary records ---------------------------------------------------------------------------------------------

  lemma NumberUnbroken(n: int)
    ensures IsUnbroken(PrintInt(n))
  {
    var s := PrintInt(n);
    assert !IsBreak('-') && forall c :: '0' <= c <= '9' ==> !IsBreak(c);
    hide IsBreak;
    forall i | 0 <= i < |s| ensures !IsBreak(s[i]) { assert s[i] == '-' || Decimal.IsDigit(s[i]); }
  }

  lemma TaskIdUnbroken(s: string)
    requires IsTaskIdText(s)
    ensures IsUnbroken(s)
  {
    assert s[0] == s[..3][0] && s[1] == s[..3][1] && s[2] == s[..3][2];
  }

  lemma LiteralsUnbroken()
    ensures IsUnbroken(RECORD_SCHEMA) && IsUnbroken("accepted") && IsUnbroken("PM") && IsUnbroken("null")
  {
  }

  /** The entries stand on one line each as soon as the free texts among them do. */
  lemma HeadedIf(a: Acceptance)
    requires IsTaskIdText(a.taskId.text) && IsShaText(a.baseCommit.text) && IsShaText(a.acceptedCommit.text)
    requires (a.implementation.Some? ==> IsShaText(a.implementation.value.text)) && (a.report.Some? ==> IsShaText(a.report.value.text))
    requires IsUnbroken(a.reviewedDispatch.text) && IsUnbroken(a.cardType.text) && IsUnbroken(a.role.text)
    requires IsUnbroken(a.reviewer.text)
    ensures Headed(a)
  {
    hide IsUnbroken, IsTaskIdText, IsShaText, PrintInt, RECORD_SCHEMA;
    LiteralsUnbroken();
    TaskIdUnbroken(a.taskId.text);
    NumberUnbroken(a.revision);
    NumberUnbroken(a.attempt);
    NumberUnbroken(a.leaseEpoch);
    ShaUnbroken(a.baseCommit.text);
    ShaUnbroken(a.acceptedCommit.text);
    if a.implementation.Some? { ShaUnbroken(a.implementation.value.text); }
    if a.report.Some? { ShaUnbroken(a.report.value.text); }
  }

  lemma LettersConvert(s: string)
    requires s != "" && ('a' <= s[0] <= 'z' || 'A' <= s[0] <= 'Z') && Stripped(s)
    ensures EntryConverts(s) && Strip(s) == s
  {
    hide IsDigits, Strip, Stripped;
    NoDigits(s);
    StripKeeps(s);
  }
}
