/** What an event file, as it is read back, says about the dispatch it belongs to. */
module EventDispatch {
  import opened Wrappers
  import opened Texts
  import opened Approvals
  import opened Ledger
  import opened Events
  import opened EventReader
  import opened EventLines
  import opened EventGuards
  import opened EventReading
  import opened EventRecovery
  import opened EventValues
  import opened EventFiles
  import Evidence = DispatchReceipts
  import LineCodec
  import ScalarCodec
  import Decimal

  // ---- Comparisons of values read ----------------------------------------------------------------------------------

  predicate Holds(d: Reading, k: Key, s: string) { Lookup(d.top, k) == Some(Words(s)) }

  predicate Counts(d: Reading, k: Key, n: int) { EqualsNumber(Lookup(d.top, k), n) }

  /** The file names this dispatch. */
  predicate IsAbout(d: Reading, i: Evidence.Identity) {
    && Holds(d, TaskIdKey, i.taskId.text) && Counts(d, RevisionKey, i.revision) && Counts(d, AttemptKey, i.attempt)
    && Holds(d, DispatchIdKey, i.dispatchId.text)
  }

  predicate IsOfKind(d: Reading, kind: Kind) { Holds(d, EventTypeKey, KindText(kind)) }

  // ---- The conditions on the texts ----------------------------------------------------------------------------------

  /** Printed, the first text reads back as the second. */
  predicate ReadsAs(t: string, s: string) { Coerce(Emit(t)) == Some(Words(s)) }

  /** The text is no number, and it has nothing to escape if it is quoted. */
  predicate Kept(s: string) { !IsDigits(s) && (NeedsQuoting(s) ==> '\\' !in s && '"' !in s) }

  predicate IsIdentityKey(k: Key) { k.AttemptKey? || k.DispatchIdKey? || k.EventIdKey? || k.EventTypeKey? }

  /** The lines of the references convert, and none of them claims another attempt, dispatch, event id or event type. */
  predicate Unclaiming(e: Event) {
    Alone(Tail(e)).Some? && forall k :: IsIdentityKey(k) ==> Claimed(e, k).None? || Claimed(e, k) == Own(e, k)
  }

  /** The event is spelled as its constructors demand, and its references claim nothing. */
  predicate Unspoiled(e: Event) { SpelledEvent(e) && ReturnsOnlyInReferences(e) && Unclaiming(Unified(e)) }

  /** The record concerns a dispatch that reads back as this one. */
  predicate Concerns(e: Event, i: Evidence.Identity) {
    && e.taskId == i.taskId && e.revision == i.revision && e.attempt == Some(i.attempt)
    && e.dispatchId.Some? && ReadsAs(e.dispatchId.value.text, i.dispatchId.text)
  }

  // ---- Texts that come back ----------------------------------------------------------------------------------------

  lemma {:induction false} ReplaceGrows(s: string, c: char, with: string)
    requires c in s && |with| == 2
    ensures |ScalarCodec.ReplaceChar(s, c, with)| > |s|
  {
    if s[0] == c {
      ReplaceKeepsLength(s[1..], c, with);
    } else {
      assert s == [s[0]] + s[1..];
      ReplaceGrows(s[1..], c, with);
    }
  }

  lemma EscapeGrows(s: string)
    requires '\\' in s || '"' in s
    ensures |ScalarCodec.Escape(s)| > |s|
  {
    var t := ScalarCodec.ReplaceChar(s, '\\', "\\\\");
    if '\\' in s { ReplaceGrows(s, '\\', "\\\\"); } else { ReplaceNothing(s, '\\', "\\\\"); }
    if '"' in t { ReplaceGrows(t, '"', "\\\""); } else { ReplaceNothing(t, '"', "\\\""); }
    hide ScalarCodec.ReplaceChar;
  }

  lemma QuotesQuote(s: string)
    requires '\\' in s || '"' in s
    ensures NeedsQuoting(s)
  {
    var i :| 0 <= i < |s| && (s[i] == '\\' || s[i] == '"');
    assert IsSpecial(s[i]);
    hide IsLeading, IsKeyword, Strip, Lower;
  }

  /** A text reads back as itself exactly if it is kept. */
  lemma KeptExactly(s: string)
    requires IsSafeText(s)
    ensures ReadsAs(s, s) <==> Kept(s)
  {
    hide Coerce, Emit, IsDigits, NeedsQuoting, ScalarCodec.Escape, IsCountable, NumberOf;
    CoerceEmitted(s);
    if '\\' in s || '"' in s { EscapeGrows(s); } else { EscapeNothing(s); }
  }

  /** Nothing else reads back as a text that is kept. */
  lemma KeptAlone(t: string, s: string)
    requires IsSafeText(t) && Kept(s) && ReadsAs(t, s)
    ensures t == s
  {
    hide Coerce, Emit, IsDigits, NeedsQuoting, ScalarCodec.Escape, IsCountable, NumberOf;
    CoerceEmitted(t);
    if '\\' in s || '"' in s { QuotesQuote(s); }
    if '\\' in t || '"' in t { EscapeSpecial(t); } else { EscapeNothing(t); }
  }

  lemma EscapeSpecial(t: string)
    requires '\\' in t || '"' in t
    ensures '\\' in ScalarCodec.Escape(t)
  {
    var u := ScalarCodec.ReplaceChar(t, '\\', "\\\\");
    if '\\' in t {
      ReplacedIn(t, '\\', "\\\\", '\\');
      ReplacedChars(u, '"', "\\\"", 'x');
      KeepsOthers(u, '"', "\\\"", '\\');
    } else {
      ReplaceNothing(t, '\\', "\\\\");
      ReplacedIn(t, '"', "\\\"", '\\');
    }
    hide ScalarCodec.ReplaceChar;
  }

  lemma {:induction false} ReplacedIn(s: string, c: char, with: string, x: char)
    requires c in s && x in with
    ensures x in ScalarCodec.ReplaceChar(s, c, with)
  {
    if s[0] != c {
      assert s == [s[0]] + s[1..];
      ReplacedIn(s[1..], c, with, x);
    }
  }

  lemma {:induction false} KeepsOthers(s: string, c: char, with: string, x: char)
    requires x in s && x != c
    ensures x in ScalarCodec.ReplaceChar(s, c, with)
  {
    if s[0] != x {
      assert s == [s[0]] + s[1..];
      KeepsOthers(s[1..], c, with, x);
    }
  }

  // ---- The keys of the dispatch -------------------------------------------------------------------------------------

  lemma TaskReads(s: string)
    requires IsTaskIdText(s)
    ensures Coerce(Emit(s)) == Some(Words(s))
  {
    hide Coerce, Emit;
    TaskIdWord(s);
    TaskIdChars(s);
    CoerceLetters(s);
  }

  lemma TaskIdChars(s: string)
    requires IsTaskIdText(s)
    ensures '\\' !in s && '"' !in s
  {
    assert s[0] == s[..3][0] && s[1] == s[..3][1] && s[2] == s[..3][2];
  }

  lemma OwnTexts(e: Event)
    requires SpelledEvent(e)
    ensures Own(e, TaskIdKey) == Some(Words(e.taskId.text)) && Own(e, EventTypeKey) == Some(Words(KindText(e.kind)))
    ensures Own(e, EventIdKey) == Coerce(Emit(e.id.text))
  {
    hide Coerce, Emit, KindText, IsTaskIdText, SpelledEvent, FieldOf, FieldText, Present, IsCommon;
    TaskIsSpelled(e);
    CommonPresent(e);
    TaskIsCommon();
    FieldTexts(e);
    TaskText(e);
    TaskReads(e.taskId.text);
    CoerceKind(e.kind);
  }

  lemma TaskIsSpelled(e: Event)
    requires SpelledEvent(e)
    ensures IsTaskIdText(e.taskId.text)
  {
  }

  lemma TaskIsCommon()
    ensures IsCommon(TaskIdKey)
  {
  }

  lemma TaskText(e: Event)
    ensures FieldText(FieldOf(e, TaskIdKey)) == Emit(e.taskId.text)
  {
    hide Emit;
  }

  lemma OwnNumbers(e: Event)
    ensures IsShort(e.revision) ==> Own(e, RevisionKey) == Some(Number(e.revision))
    ensures e.attempt.Some? && IsShort(e.attempt.value) ==> Own(e, AttemptKey) == Some(Number(e.attempt.value))
    ensures e.attempt.None? ==> Own(e, AttemptKey) == Some(Nothing)
    ensures e.dispatchId.Some? ==> Own(e, DispatchIdKey) == Coerce(Emit(e.dispatchId.value.text))
    ensures e.dispatchId.None? ==> Own(e, DispatchIdKey) == Some(Nothing)
  {
    CommonPresent(e);
    NumberTexts(e);
    hide Coerce, Emit, PrintInt, IsShort, FieldOf, FieldText, Present, IsCommon;
    EmptyCoerces();
    CoerceNumber(e.revision);
    if e.attempt.Some? { CoerceNumber(e.attempt.value); }
  }

  datatype KindMark = KindMark(length: nat, first: char, sixth: char, twelfth: char)

  function MarkOf(k: Kind): KindMark {
    match k
    case Specification => KindMark(14, 'T', 'S', 'I')
    case Dispatching => KindMark(15, 'T', 'D', 'C')
    case Acknowledgement => KindMark(21, 'D', 'T', 'K')
    case Submission => KindMark(18, 'D', 'E', 'B')
    case Acceptation => KindMark(17, 'D', 'E', 'C')
    case Return => KindMark(17, 'D', 'E', 'T')
    case Requeue => KindMark(13, 'T', 'R', 'E')
    case Integrating => KindMark(17, 'C', 'E', 'G')
    case Blocking => KindMark(12, 'T', 'B', 'D')
    case IntegrationFailing => KindMark(18, 'I', 'R', '_')
    case Resolution => KindMark(16, 'B', 'E', 'O')
    case Rescoping => KindMark(16, 'B', 'E', 'C')
    case BlockerCancelling => KindMark(17, 'B', 'E', 'C')
    case Cancelling => KindMark(14, 'T', 'C', 'L')
    case Superseding => KindMark(15, 'T', 'S', 'E')
    case Failing => KindMark(15, 'D', 'T', 'I')
  }

  predicate Marked(k: Kind) {
    var s := KindText(k);
    |s| >= 12 && KindMark(|s|, s[0], s[5], s[11]) == MarkOf(k)
  }

  lemma SomeKindsAreMarked(k: Kind)
    requires k.Specification? || k.Dispatching? || k.Acknowledgement? || k.Submission? || k.Acceptation?
    ensures Marked(k)
  {
  }

  lemma MoreKindsAreMarked(k: Kind)
    requires k.Return? || k.Requeue? || k.Integrating? || k.Blocking? || k.IntegrationFailing?
    ensures Marked(k)
  {
  }

  lemma LastKindsAreMarked(k: Kind)
    requires k.Resolution? || k.Rescoping? || k.BlockerCancelling? || k.Cancelling? || k.Superseding? || k.Failing?
    ensures Marked(k)
  {
  }

  lemma KindIsMarked(k: Kind)
    ensures Marked(k)
  {
    hide Marked;
    if k.Specification? || k.Dispatching? || k.Acknowledgement? || k.Submission? || k.Acceptation? {
      SomeKindsAreMarked(k);
    } else if k.Return? || k.Requeue? || k.Integrating? || k.Blocking? || k.IntegrationFailing? {
      MoreKindsAreMarked(k);
    } else {
      LastKindsAreMarked(k);
    }
  }

  lemma MarksDiffer(k: Kind, l: Kind)
    requires MarkOf(k) == MarkOf(l)
    ensures k == l
  {
  }

  lemma KindInjective(k: Kind, l: Kind)
    requires KindText(k) == KindText(l)
    ensures k == l
  {
    KindIsMarked(k);
    KindIsMarked(l);
    hide KindText, MarkOf;
    MarksDiffer(k, l);
  }

  // ---- Files as they are read back ----------------------------------------------------------------------------------

  lemma IdentityIsEarly(k: Key)
    ensures IsIdentityKey(k) ==> Rank(k) < 9
    ensures k.TaskIdKey? || k.RevisionKey? ==> Rank(k) > 9
  {
  }

  lemma SaidOfIdentity(e: Event, k: Key)
    requires Unclaiming(e) && (IsIdentityKey(k) || ((k.TaskIdKey? || k.RevisionKey?) && Own(e, k).Some?))
    ensures Said(e, k) == Own(e, k)
  {
    hide Own, Claimed, Alone, Tail;
    IdentityIsEarly(k);
    hide Rank;
  }

  lemma RecordStays(e: Event)
    ensures var u := Unified(e);
      && u.id == e.id && u.kind == e.kind && u.taskId == e.taskId && u.revision == e.revision && u.attempt == e.attempt
      && u.dispatchId == e.dispatchId && (Converts(u) <==> Converts(e))
  {
    hide UnifiedRefs, Readable, IsShort;
  }

  /** An event file whose references claim nothing is read exactly if its record converts. */
  lemma FileReads(e: Event)
    requires Unspoiled(e)
    ensures ReadFile(e).Some? <==> Converts(e)
  {
    hide SpelledEvent, Unclaiming, Converts, ReadFile, Unified, EventText, Parse, Said, Tail, ReturnsOnlyInReferences, Breaks, Alone;
    FileIsUnified(e);
    ReadSays(Unified(e), TaskIdKey);
    BreaksNowhere(Unified(e));
    RecordStays(e);
    UnclaimingConverts(Unified(e));
  }

  lemma UnclaimingConverts(e: Event)
    requires Unclaiming(e)
    ensures Alone(Tail(e)).Some?
  {
  }

  /** What is read for the keys that tell the dispatch and the kind. */
  lemma FileSays(e: Event, k: Key)
    requires Unspoiled(e) && ReadFile(e).Some?
    requires IsIdentityKey(k) || ((k.TaskIdKey? || k.RevisionKey?) && Own(Unified(e), k).Some?)
    ensures Lookup(ReadFile(e).value.top, k) == Own(Unified(e), k)
  {
    hide SpelledEvent, Unclaiming, ReadFile, Unified, EventText, Parse, Said, Tail, ReturnsOnlyInReferences, Breaks, Alone, Own, Lookup;
    FileIsUnified(e);
    ReadSays(Unified(e), k);
    SaidOfIdentity(Unified(e), k);
  }

  lemma ConvertsShort(e: Event)
    requires Converts(e)
    ensures IsShort(e.revision) && (e.attempt.Some? ==> IsShort(e.attempt.value))
  {
    hide IsShort, Readable;
  }

  /** The file names a dispatch exactly if its record concerns it. */
  lemma AboutExactly(e: Event, i: Evidence.Identity)
    requires Unspoiled(e) && ReadFile(e).Some?
    ensures IsAbout(ReadFile(e).value, i) <==> Concerns(e, i)
  {
    hide SpelledEvent, Unclaiming, ReadFile, Unified, ReturnsOnlyInReferences, Own, Lookup, Coerce, Emit, IsShort, Converts, Unspoiled;
    var d, u := ReadFile(e).value, Unified(e);
    FileReads(e);
    ConvertsShort(e);
    RecordStays(e);
    UnspoiledParts(e);
    OwnTexts(u);
    OwnNumbers(u);
    FileSays(e, TaskIdKey);
    FileSays(e, RevisionKey);
    FileSays(e, AttemptKey);
    FileSays(e, DispatchIdKey);
  }

  lemma UnspoiledParts(e: Event)
    requires Unspoiled(e)
    ensures SpelledEvent(e) && SpelledEvent(Unified(e)) && ReturnsOnlyInReferences(e)
  {
    hide SpelledEvent, Unclaiming, ReturnsOnlyInReferences;
    UnifiedIsSpelled(e);
  }

  lemma KindExactly(e: Event, kind: Kind)
    requires Unspoiled(e) && ReadFile(e).Some?
    ensures IsOfKind(ReadFile(e).value, kind) <==> e.kind == kind
  {
    hide SpelledEvent, Unclaiming, ReadFile, Unified, ReturnsOnlyInReferences, Own, Lookup, Coerce, Emit, Unspoiled, KindText;
    RecordStays(e);
    UnspoiledParts(e);
    OwnTexts(Unified(e));
    FileSays(e, EventTypeKey);
    if KindText(e.kind) == KindText(kind) { KindInjective(e.kind, kind); }
  }

  lemma IdExactly(e: Event, s: string)
    requires Unspoiled(e) && ReadFile(e).Some?
    ensures Holds(ReadFile(e).value, EventIdKey, s) <==> ReadsAs(e.id.text, s)
  {
    hide SpelledEvent, Unclaiming, ReadFile, Unified, ReturnsOnlyInReferences, Own, Lookup, Coerce, Emit, Unspoiled;
    RecordStays(e);
    UnspoiledParts(e);
    OwnTexts(Unified(e));
    FileSays(e, EventIdKey);
  }

  // ---- References on one line --------------------------------------------------------------------------------------

  predicate IsHarmless(line: string) {
    var r := ReadLine(NOTHING_READ, line); r.Some? && r.value.top == map[]
  }

  lemma {:induction false} HarmlessLines(lines: seq<string>)
    requires forall line :: line in lines ==> IsHarmless(line)
    ensures Alone(lines).Some? && Alone(lines).value.top == map[]
    decreases |lines|
  {
    hide ReadLine;
    if lines != [] {
      assert lines[0] in lines;
      HarmlessLines(lines[1..]);
      Independent(ReadLine(NOTHING_READ, lines[0]).value, lines[1..]);
    }
  }

  /** What follows the colon in a quoted text ends in its quote, so that it cannot be taken for a number. */
  lemma EndsInQuote(v: string)
    requires v != "" && v[|v| - 1] == '"'
    ensures Strip(v) != "" && Coerce(v).Some?
  {
    hide IsSpace, Coerce, Strip, Stripped;
    QuoteIsNoSpace();
    LastStays(v);
    StripMeans(v);
    CoerceStripped(v);
    QuoteEndCoerces(Strip(v));
  }

  lemma QuoteIsNoSpace()
    ensures !IsSpace('"') && !IsDigitChar('"')
  {
    NotSpace();
    if IsDigitChar('"') { DigitIsPlain('"'); }
    hide IsDigitChar, IsSpace;
  }

  lemma LastStays(v: string)
    requires v != "" && !IsSpace(v[|v| - 1])
    ensures Strip(v) != "" && Strip(v)[|Strip(v)| - 1] == v[|v| - 1]
  {
    hide IsSpace;
    StripLeftMeans(v);
    var t := StripLeft(v);
    assert |v| - 1 >= |v| - |t|;
    assert t[|t| - 1] == v[|v| - 1];
  }

  lemma QuoteEndCoerces(s: string)
    requires s != "" && s[|s| - 1] == '"' && Strip(s) == s
    ensures Coerce(s).Some?
  {
    hide Strip, IsDigits, IsFlagWord, Converted;
    QuoteEndsNoDigits(s);
    if |s| > 1 { QuoteEndsNoDigits(s[1..]); } else { NoDigits(s[1..]); }
  }

  lemma QuoteEndsNoDigits(s: string)
    requires s != "" && s[|s| - 1] == '"'
    ensures !IsDigits(s)
  {
    if IsDigits(s) { DigitIsPlain(s[|s| - 1]); }
    hide IsDigitChar;
  }

  /** A reference on one line is harmless wherever it stands. */
  lemma OneLineIsHarmless(s: string)
    requires IsReferenceText(s) && OneLine(s)
    ensures IsHarmless("- " + Emit(s))
  {
    var line := "- " + Emit(s);
    EmittedChars(s, ':');
    EmittedHead(s);
    NotSpace();
    StripStops(line, 0);
    assert line[0] == '-' && !IsIndented(line);
    if IsEntry(line) {
      assert ':' in line ==> ':' in Emit(s);
      ColonQuotes(s);
      hide Emit, IsSpace, Strip, Coerce, IsReferenceText;
      QuotedEntry(line);
    }
    hide Emit, IsSpace, Strip, ReadEntry, IsReferenceText;
  }

  lemma ColonQuotes(s: string)
    requires ':' in s
    ensures Emit(s)[|Emit(s)| - 1] == '"'
  {
    var i :| 0 <= i < |s| && s[i] == ':';
    assert IsSpecial(s[i]);
    hide IsLeading, IsKeyword, Strip, Lower, ScalarCodec.Escape;
  }

  lemma QuotedEntry(line: string)
    requires IsEntry(line) && line[0] == '-' && line[|line| - 1] == '"'
    ensures IsHarmless(line)
  {
    hide Strip, Find, Coerce, IsSpace, IsDigits, IsBlank, IsHarmless;
    var n := Colon(line);
    var front, back := line[..n], line[n + 1..];
    NotSpace();
    assert front[0] == '-';
    StripStops(front, 0);
    StripMeans(front);
    FindNone(Strip(front));
    assert back != "" && back[|back| - 1] == '"';
    EndsInQuote(back);
    CoerceStripped(back);
    assert IsHarmless(line) by { QuotedReads(line, front, back); }
  }

  lemma QuotedReads(line: string, front: string, back: string)
    requires IsEntry(line) && Partition(line) == (Strip(front), Strip(back)) && Find(Strip(front), KEYS) == None
    requires Strip(back) != "" && Coerce(Strip(back)).Some?
    ensures IsHarmless(line)
  {
    hide Strip, Find, Coerce, Partition, KEYS, IsBlank;
  }

  predicate OnOneLine(refs: seq<Text>) { forall ref :: ref in refs ==> '\n' !in ref.text && '\r' !in ref.text }

  /** References on one line each claim nothing. */
  lemma OneLineIsUnspoiled(e: Event)
    requires SpelledEvent(e) && ReturnsOnlyInReferences(e) && OnOneLine(e.evidenceRefs)
    ensures Unspoiled(e)
  {
    hide ReturnsOnlyInReferences, SpelledEvent, IsReferenceText, Unified, Tail, Own, Alone, OnOneLine, Lookup;
    SpelledReferences(e);
    UnifiedSame(e);
    TailIsHarmless(e);
    NothingClaimed(e);
  }

  lemma TailIsHarmless(e: Event)
    requires OnOneLine(e.evidenceRefs) && forall ref :: ref in e.evidenceRefs ==> IsReferenceText(ref.text)
    ensures Alone(Tail(e)).Some? && Alone(Tail(e)).value.top == map[]
  {
    hide IsReferenceText, ReferenceText, Emit, IsHarmless, ReadLines;
    if e.evidenceRefs != [] {
      OneLineTexts(e.evidenceRefs);
      forall line | line in Tail(e) ensures IsHarmless(line) {
        var i :| 0 <= i < |Tail(e)| && Tail(e)[i] == line;
        assert line == "- " + Emit(e.evidenceRefs[i + 1].text) && e.evidenceRefs[i + 1] in e.evidenceRefs;
        OneLineIsHarmless(e.evidenceRefs[i + 1].text);
      }
    }
    HarmlessLines(Tail(e));
  }

  lemma NothingClaimed(e: Event)
    requires Alone(Tail(e)).Some? && Alone(Tail(e)).value.top == map[]
    ensures forall k :: Claimed(e, k).None?
  {
    hide Tail, Alone;
  }

  lemma UnifiedSame(e: Event)
    requires OnOneLine(e.evidenceRefs)
    ensures Unified(e) == e
  {
    forall i | 0 <= i < |e.evidenceRefs| ensures Translated(e.evidenceRefs[i].text) == e.evidenceRefs[i].text {
      assert e.evidenceRefs[i] in e.evidenceRefs;
      TranslatedSame(e.evidenceRefs[i].text);
    }
    assert UnifiedRefs(e.evidenceRefs) == e.evidenceRefs;
  }

  // ---- Events without carriage returns -------------------------------------------------------------------------------

  predicate NoReturn(s: string) { '\r' !in s }

  lemma StatesHaveNoReturn(s: State)
    ensures NoReturn(StateText(s))
  {
  }

  lemma LiteralsHaveNoReturn()
    ensures NoReturn("PM") && NoReturn("passed") && NoReturn(SCHEMA) && NoReturn("null") && NoReturn("[]")
  {
  }

  lemma DigestHasNoReturn()
    ensures NoReturn(DigestText())
  {
    var z := Digits(0, 64);
    assert NoReturn("sha256:");
    hide Digits;
  }

  lemma NumbersHaveNoReturn(n: int)
    ensures NoReturn(PrintInt(n))
  {
    var s := PrintInt(n);
    forall i | 0 <= i < |s| ensures s[i] != '\r' { assert s[i] == '-' || Decimal.IsDigit(s[i]); }
  }

  lemma SpelledHasNoReturn(s: string)
    requires IsSafeText(s) || IsTaskIdText(s) || IsShaText(s) || IsTimeText(s) || IsUpperText(s)
    ensures NoReturn(s)
  {
    if IsTaskIdText(s) { assert s[0] == s[..3][0] && s[1] == s[..3][1] && s[2] == s[..3][2]; }
  }

  lemma MethodHasNoReturn(s: string)
    requires IsMethodText(s)
    ensures NoReturn(s)
  {
  }

  lemma FailureHasNoReturn(s: string)
    requires IsFailureText(s)
    ensures NoReturn(s)
  {
  }

  lemma PlainHasNoReturn(e: Event, k: Key)
    requires SpelledEvent(e) && NoReturn(e.id.text) && FieldOf(e, k).Plain?
    ensures NoReturn(FieldOf(e, k).text)
  {
    hide NoReturn, KindText, StateText, IsUpperText, IsSafeText, IsEventIdText, IsTaskIdText, IsShaText, IsTimeText, TimeText, IsMethodText, IsFailureText, SpelledGuard, IsReferenceText, DigestText, SCHEMA;
    var s := FieldOf(e, k).text;
    LiteralsHaveNoReturn();
    DigestHasNoReturn();
    StatesHaveNoReturn(e.fromState);
    StatesHaveNoReturn(e.toState);
    KindsAreUpper(e.kind);
    if IsMethodText(s) {
      MethodHasNoReturn(s);
    } else if IsFailureText(s) {
      FailureHasNoReturn(s);
    } else if IsSafeText(s) || IsTaskIdText(s) || IsShaText(s) || IsTimeText(s) || IsUpperText(s) {
      SpelledHasNoReturn(s);
    }
  }

  /** Without guards, and with an id that names a file, carriage returns can only be in the references. */
  lemma ReturnsNowhere(e: Event)
    requires SpelledEvent(e) && NoReturn(e.id.text) && e.guards == []
    ensures ReturnsOnlyInReferences(e)
  {
    LiteralsHaveNoReturn();
    forall k | k != EvidenceRefsKey ensures '\r' !in FieldText(FieldOf(e, k)) {
      FieldHasNoReturn(e, k);
    }
    hide FieldOf, FieldText;
  }

  lemma FieldHasNoReturn(e: Event, k: Key)
    requires SpelledEvent(e) && NoReturn(e.id.text) && e.guards == [] && k != EvidenceRefsKey
    ensures '\r' !in FieldText(FieldOf(e, k))
  {
    hide SpelledEvent, Emit, PrintInt, KindText, StateText, TimeText, DigestText, SCHEMA;
    LiteralsHaveNoReturn();
    var f := FieldOf(e, k);
    if f.Plain? {
      PlainHasNoReturn(e, k);
      EmittedChars(f.text, '\r');
    } else if f.Integer? {
      NumbersHaveNoReturn(f.number);
    }
  }

  // ---- Ids that receipts allow --------------------------------------------------------------------------------------

  predicate IsIdChar(c: char) {
    'a' <= c <= 'z' || 'A' <= c <= 'Z' || '0' <= c <= '9' || c == '.' || c == '_' || c == '-'
  }

  /** `[A-Za-z0-9][A-Za-z0-9._-]{0,127}`. */
  predicate IsReceiptId(s: string) {
    1 <= |s| <= 128 && s[0] != '.' && s[0] != '_' && s[0] != '-' && forall i :: 0 <= i < |s| ==> IsIdChar(s[i])
  }

  lemma IdCharDigit(c: char)
    requires IsIdChar(c)
    ensures IsDigitChar(c) <==> '0' <= c <= '9'
  {
    if IsDigitChar(c) { DigitIsPlain(c); }
    hide InDecimalRow, InDigitRange;
  }

  /** A dispatch id that a receipt allows reads back as itself unless it is all digits. */
  lemma ReceiptIdKept(s: string)
    requires IsReceiptId(s)
    ensures Kept(s) <==> exists i :: 0 <= i < |s| && !('0' <= s[i] <= '9')
  {
    hide NeedsQuoting, IsDigitChar;
    assert '\\' !in s && '"' !in s by { forall c | c in s ensures IsIdChar(c) { } }
    forall i | 0 <= i < |s| ensures IsDigitChar(s[i]) <==> '0' <= s[i] <= '9' { IdCharDigit(s[i]); }
  }

  // ---- Texts that are not what they were -----------------------------------------------------------------------------

  lemma DigitsAreNotKept()
    ensures IsSafeText("123") && IsDigits("123") && !Kept("123")
  {
    NotSpaces();
    hide IsSpace;
    assert IsDigits("123");
    hide NeedsQuoting;
  }

  lemma NotSpaces()
    ensures !IsSpace('1') && !IsSpace('3')
  {
  }

  lemma SuperscriptIsUnreadable()
    ensures IsDigits("²") && !IsDecimals("²")
  {
    var c := "²"[0];
    assert c as int == 0xB2 && InDigitRange(0xB2) by { assert (0xB2, 0xB3) == DIGIT_RANGES[0]; }
    hide InDecimalRow, InDigitRange;
    assert IsDigitChar(c) && !IsDecimalChar(c);
  }

  /** A source message named by a superscript makes an event file that cannot be read. */
  lemma SuperscriptDoesNotConvert(e: Event)
    requires Unspoiled(e) && e.source == Some(Text("²"))
    ensures ReadFile(e).None?
  {
    FileReads(e);
    SuperscriptIsUnreadable();
    hide Unspoiled, ReadFile, IsDigits, IsDecimals;
  }

  /** Below its first line, this reference claims another dispatch. */
  const CLAIMING_REFERENCE := "a" + "\n" + "dispatch_id: zzz"

  lemma ClaimingLines()
    ensures ReferenceText([Text(CLAIMING_REFERENCE)]) == ["- \"a", "dispatch_id: zzz\""]
  {
    hide LineCodec.Split, NeedsQuoting, ScalarCodec.Escape, ReferenceText;
    ClaimingIsQuoted();
    PartsAreOneLine();
    TwoLineReference("a", "dispatch_id: zzz");
  }

  lemma PartsAreOneLine()
    ensures OneLine("a") && OneLine("dispatch_id: zzz")
    ensures "- \"" + "a" == "- \"a" && "dispatch_id: zzz" + "\"" == "dispatch_id: zzz\""
  {
  }

  lemma TwoLineReference(a: string, b: string)
    requires OneLine(a) && OneLine(b) && NeedsQuoting(a + "\n" + b) && '\\' !in a + "\n" + b && '"' !in a + "\n" + b
    ensures ReferenceText([Text(a + "\n" + b)]) == ["- \"" + a, b + "\""]
  {
    hide LineCodec.Split, NeedsQuoting, ScalarCodec.Escape;
    var s := a + "\n" + b;
    EscapeNothing(s);
    assert ReferenceLines([Text(s)]) == ["- " + Emit(s)];
    assert "- " + Emit(s) == "- \"" + a + "\n" + (b + "\"");
    SplitConcat("- \"" + a, b + "\"");
    SplitNoFeed("- \"" + a);
    SplitNoFeed(b + "\"");
  }

  lemma ClaimingIsQuoted()
    ensures NeedsQuoting(CLAIMING_REFERENCE) && '\\' !in CLAIMING_REFERENCE && '"' !in CLAIMING_REFERENCE
    ensures '\r' !in CLAIMING_REFERENCE && '\n' in CLAIMING_REFERENCE
  {
    assert CLAIMING_REFERENCE[1] == '\n';
    FeedQuotes(CLAIMING_REFERENCE);
    hide NeedsQuoting;
  }

  /** An event with that reference reads back under the other dispatch, and under its own id. */
  lemma ClaimingReference(e: Event)
    requires SpelledEvent(e) && ReturnsOnlyInReferences(e) && Converts(e) && e.evidenceRefs == [Text(CLAIMING_REFERENCE)]
    ensures ReadFile(e).Some? && Lookup(ReadFile(e).value.top, DispatchIdKey) == Some(Words("zzz\""))
    ensures Lookup(ReadFile(e).value.top, EventIdKey) == Coerce(Emit(e.id.text))
  {
    hide SpelledEvent, ReturnsOnlyInReferences, Converts, ReadFile, EventText, Parse, Breaks, Unified, Said, Alone, Own, Claimed, Tail, Lookup;
    ClaimingUnified(e);
    FileIsUnified(e);
    ReadSays(e, DispatchIdKey);
    BreaksNowhere(e);
    ReadSays(e, EventIdKey);
    ClaimingTail(e);
    SaidAsClaimed(e, DispatchIdKey);
    SaidAsClaimed(e, EventIdKey);
    OwnTexts(e);
  }

  lemma ClaimingUnified(e: Event)
    requires e.evidenceRefs == [Text(CLAIMING_REFERENCE)]
    ensures Unified(e) == e
  {
    ClaimingIsQuoted();
    TranslatedSame(CLAIMING_REFERENCE);
    hide Translated, CLAIMING_REFERENCE;
    assert UnifiedRefs(e.evidenceRefs) == e.evidenceRefs;
  }

  lemma SaidAsClaimed(e: Event, k: Key)
    requires IsIdentityKey(k)
    ensures Said(e, k) == Later(Own(e, k), Claimed(e, k))
  {
    hide Own, Claimed, Later;
    IdentityIsEarly(k);
    hide Rank;
  }

  lemma ClaimingTail(e: Event)
    requires e.evidenceRefs == [Text(CLAIMING_REFERENCE)]
    ensures Alone(Tail(e)).Some? && Claimed(e, DispatchIdKey) == Some(Words("zzz\"")) && Claimed(e, EventIdKey).None?
  {
    ClaimingLines();
    hide ReferenceText, CLAIMING_REFERENCE;
    var line := "dispatch_id: zzz\"";
    assert Tail(e) == [line];
    assert line == Entry("dispatch_id", "zzz\"");
    hide Tail;
    ClaimCoerces();
    ReadNamed(NOTHING_READ, DispatchIdKey, "zzz\"");
    ReadOne(NOTHING_READ, line, []);
    assert [line] + [] == [line];
    hide Coerce, ReadLine;
  }

  lemma ClaimCoerces()
    ensures Strip("zzz\"") == "zzz\"" && Coerce("zzz\"") == Some(Words("zzz\"")) && Name(DispatchIdKey) == "dispatch_id"
  {
    hide Strip, Coerce, IsDigits, IsSpace;
    ClaimIsStripped();
    StripKeeps("zzz\"");
    NoDigits("zzz\"");
    CoerceWords("zzz\"");
  }

  lemma ClaimIsStripped()
    ensures Stripped("zzz\"") && "zzz\""[0] == 'z'
  {
    QuoteIsNoSpace();
    assert !IsSpace('z');
    hide IsSpace;
  }
}
