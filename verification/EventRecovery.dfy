/** The exact condition under which a gated replay recovers the approval guard from the text of an event. */
module EventRecovery {
  import opened Wrappers
  import opened Texts
  import opened Approvals
  import opened Ledger
  import opened Events
  import opened EventReader
  import opened EventLines
  import opened EventGuards
  import opened EventReading
  import LineCodec
  import Decimal
  import ScalarCodec

  /** Text that does not fool the reader into a number that it cannot convert. */
  predicate Readable(s: string) { IsDigits(s) ==> IsCountable(s) }

  /** Text that is printed as it is and comes back as it is even where the reader removes no quotes. */
  predicate Bare(s: string) { !NeedsQuoting(s) && Stripped(s) }

  predicate IdReads(s: string) { NeedsQuoting(s) || |Strip(s)| > 4 }

  function Equivalence(e: Event): Option<string> {
    if e.extra.Integration? && e.extra.equivalence.Some? && e.extra.equivalence.value.1.Some?
    then Some(e.extra.equivalence.value.1.value.text) else None
  }

  /** The reader gets through the values on one line. */
  predicate Converts(e: Event) {
    && (e.dispatchId.Some? ==> Readable(e.dispatchId.value.text)) && (e.source.Some? ==> Readable(e.source.value.text))
    && (Equivalence(e).Some? ==> Readable(Equivalence(e).value))
    && IsShort(e.revision) && (e.attempt.Some? ==> IsShort(e.attempt.value)) && IsShort(e.leaseEpoch)
  }

  // ---- Values -----------------------------------------------------------------------------------------------------

  lemma DecimalDigits(s: string)
    requires Decimal.AllDigits(s) && s != ""
    ensures IsDigits(s) && IsDecimals(s) && Stripped(s)
  {
    forall i | 0 <= i < |s| ensures IsDigitChar(s[i]) && IsDecimalChar(s[i]) { assert Decimal.IsDigit(s[i]); }
    assert Decimal.IsDigit(s[0]) && Decimal.IsDigit(s[|s| - 1]);
  }

  lemma CoerceNumber(n: int)
    ensures Coerce(PrintInt(n)) == if IsShort(n) then Some(Number(n)) else None
  {
    var s := Decimal.Print(if n < 0 then -n else n);
    DecimalDigits(s);
    NumberOfDecimal(s);
    Decimal.ParsePrint(if n < 0 then -n else n);
    hide IsDigits, IsDecimals, Decimal.Print, Stripped;
    if n < 0 {
      NegativeCoerces(s);
    } else {
      CoerceDigits(s);
    }
    hide Coerce;
  }

  lemma NegativeShape(s: string)
    requires IsDigits(s) && Stripped(s)
    ensures var v := "-" + s;
      v[0] == '-' && v[1..] == s && Strip(v) == v && !IsDigits(v) && v != "null" && !IsFlagWord(v)
  {
    assert s != "";
    hide Strip, IsDigits, IsFlagWord, IsSpace;
    var v := "-" + s;
    assert v[|v| - 1] == s[|s| - 1];
    NotSpace();
    StripKeeps(v);
    NoDigits(v);
    NoWord(v);
  }

  lemma NegativeCoerces(s: string)
    requires IsDigits(s) && IsDecimals(s) && Stripped(s)
    ensures Coerce("-" + s) == if |s| <= MAX_DIGITS then Some(Number(-1 * NumberOf(s))) else None
  {
    hide Strip, IsDigits, IsDecimals, IsFlagWord, Stripped, NumberOf, Coerce;
    NegativeShape(s);
    SignedCoerces("-" + s);
  }

  lemma SignedCoerces(v: string)
    requires v != "" && v[0] == '-' && Strip(v) == v && !IsDigits(v) && IsDigits(v[1..]) && v != "null" && !IsFlagWord(v)
    ensures Coerce(v) == Converted(v[1..], -1)
  {
    hide Strip, IsDigits, IsFlagWord, Converted;
  }

  lemma CoerceSha(s: string)
    requires IsShaText(s)
    ensures Coerce(Emit(s)).Some?
  {
    assert Stripped(s);
    CoerceEmitted(s);
    if IsDigits(s) {
      forall i | 0 <= i < |s| ensures IsDecimalChar(s[i]) { DigitIsPlain(s[i]); }
    }
    hide Coerce, Emit, IsSpace, IsDigitChar, InDecimalRow;
  }

  /** Text that cannot be taken for anything else. */
  lemma CoerceTame(s: string)
    requires IsTame(s) && Stripped(s) && !IsDigits(s)
    ensures Coerce(Emit(s)) == Some(Words(if NeedsQuoting(s) then ScalarCodec.Escape(s) else s))
  {
    CoerceEmitted(s);
    hide Coerce, Emit, IsDigits;
  }

  /** Text without quotes and backslashes that starts with a letter comes back. */
  lemma CoerceLetters(s: string)
    requires s != "" && Stripped(s) && '\\' !in s && '"' !in s && ('a' <= s[0] <= 'z' || 'A' <= s[0] <= 'Z')
    ensures Coerce(Emit(s)) == Some(Words(s))
  {
    NoDigits(s);
    CoerceEmitted(s);
    EscapeNothing(s);
    hide Coerce, Emit, IsDigits, ScalarCodec.Escape;
  }

  lemma CoerceKind(k: Kind)
    ensures Coerce(Emit(KindText(k))) == Some(Words(KindText(k)))
  {
    var s := KindText(k);
    KindsAreUpper(k);
    hide KindText;
    assert Stripped(s) && '\\' !in s && '"' !in s && 'A' <= s[0] <= 'Z';
    CoerceLetters(s);
    hide Coerce, Emit;
  }

  lemma CoerceSchema()
    ensures Coerce(Emit(SCHEMA)) == Some(Words(SCHEMA))
  {
    assert Stripped(SCHEMA) && '\\' !in SCHEMA && '"' !in SCHEMA && SCHEMA[0] == 'a';
    CoerceLetters(SCHEMA);
    hide Coerce, Emit;
  }

  lemma CoerceDigest()
    ensures Coerce(Emit(DigestText())) == Some(Words(DigestText())) && IsDigestText(DigestText())
  {
    DigestShape();
    hide DigestText, IsDigestText, Coerce, Emit;
    CoerceLetters(DigestText());
  }

  lemma DigestShape()
    ensures var s := DigestText();
      IsDigestText(s) && s != "" && s[0] == 's' && Stripped(s) && '\\' !in s && '"' !in s
  {
    hide Digits;
    var s, z := DigestText(), Digits(0, 64);
    PrefixPlain();
    assert s[..7] == "sha256:" && s[7..] == z && |s| == 71;
    assert s[0] == s[..7][0] && s[70] == z[63] && !IsSpace(s[70]);
    hide DigestText, IsSpace;
    forall i | 7 <= i < 71 ensures '0' <= s[i] <= '9' { assert s[i] == z[i - 7]; }
    forall c | c in s ensures c != '\\' && c != '"' {
      var i :| 0 <= i < |s| && s[i] == c;
      assert i < 7 ==> s[i] == s[..7][i];
    }
  }

  lemma PrefixPlain()
    ensures "sha256:"[0] == 's' && !IsSpace('s')
    ensures forall c :: c in "sha256:" ==> c != '\\' && c != '"'
  {
  }

  lemma EscapeFront(a: string, b: string)
    requires '\\' !in a && '"' !in a
    ensures ScalarCodec.Escape(a + b) == a + ScalarCodec.Escape(b)
  {
    ScalarCodec.ReplaceConcat(a, b, '\\', "\\\\");
    ReplaceNothing(a, '\\', "\\\\");
    var c := ScalarCodec.ReplaceChar(b, '\\', "\\\\");
    ScalarCodec.ReplaceConcat(a, c, '"', "\\\"");
    ReplaceNothing(a, '"', "\\\"");
    hide ScalarCodec.ReplaceChar;
  }

  lemma EscapeNonempty(s: string)
    requires s != ""
    ensures ScalarCodec.Escape(s) != ""
  {
    ReplaceKeepsLength(s, '\\', "\\\\");
    ReplaceKeepsLength(ScalarCodec.ReplaceChar(s, '\\', "\\\\"), '"', "\\\"");
    hide ScalarCodec.ReplaceChar;
  }

  /** An event id comes back as one, unless all but its prefix is white space that is not quoted. */
  lemma CoerceId(s: string)
    requires IsEventIdText(s)
    ensures Coerce(Emit(s)).Some? && Coerce(Emit(s)).value.Words?
    ensures IsEventIdText(Coerce(Emit(s)).value.text) <==> IdReads(s)
  {
    if NeedsQuoting(s) {
      QuotedId(s);
    } else {
      UnquotedId(s);
    }
    hide Coerce, NeedsQuoting, Strip;
  }

  lemma QuotedId(s: string)
    requires IsEventIdText(s) && NeedsQuoting(s)
    ensures Coerce(Emit(s)).Some? && Coerce(Emit(s)).value.Words? && IsEventIdText(Coerce(Emit(s)).value.text)
  {
    hide Coerce, NeedsQuoting, ScalarCodec.Escape;
    CoerceQuoted(ScalarCodec.Escape(s));
    assert s == "EVT-" + s[4..];
    EscapeFront("EVT-", s[4..]);
    EscapeNonempty(s[4..]);
    EscapedChars(s, '\n');
    var t := "EVT-" + ScalarCodec.Escape(s[4..]);
    assert t[..4] == "EVT-";
  }

  lemma UnquotedId(s: string)
    requires IsEventIdText(s) && !NeedsQuoting(s)
    ensures Coerce(Emit(s)).Some? && Coerce(Emit(s)).value.Words?
    ensures IsEventIdText(Coerce(Emit(s)).value.text) <==> |Strip(s)| > 4
  {
    hide Coerce, NeedsQuoting, Strip, Stripped;
    IdLetters(s);
    StripStops(s, 3);
    StripMeans(s);
    var v := Strip(s);
    assert v[0] == v[..4][0] == 'E';
    NoDigits(v);
    CoerceWords(v);
    CoerceStripped(s);
    hide IsDigits, IsSpace;
  }

  lemma IdLetters(s: string)
    requires IsEventIdText(s)
    ensures s[0] == 'E' && s[1] == 'V' && s[2] == 'T' && s[3] == '-' && !IsSpace(s[0]) && !IsSpace(s[3])
  {
    assert s[..4][0] == s[0] && s[..4][1] == s[1] && s[..4][2] == s[2] && s[..4][3] == s[3];
  }

  lemma CoerceWord(s: string)
    requires s != "" && Stripped(s) && ('a' <= s[0] <= 'z' || 'A' <= s[0] <= 'Z')
    ensures Coerce(Emit(s)).Some? && Coerce(Emit(s)).value.Words?
  {
    NoDigits(s);
    CoerceEmitted(s);
    hide Coerce, Emit, IsDigits;
  }

  lemma StateWord(s: State)
    ensures StateText(s) != "" && Stripped(StateText(s)) && 'a' <= StateText(s)[0] <= 'z'
  {
  }

  lemma LiteralWords()
    ensures Stripped("PM") && "PM"[0] == 'P' && Stripped("passed") && "passed"[0] == 'p'
  {
  }

  lemma MethodWord(s: string)
    requires IsMethodText(s)
    ensures s != "" && Stripped(s) && 'a' <= s[0] <= 'z'
  {
  }

  lemma FailureWord(s: string)
    requires IsFailureText(s)
    ensures s != "" && Stripped(s) && 'a' <= s[0] <= 'z'
  {
  }

  lemma TaskIdWord(s: string)
    requires IsTaskIdText(s)
    ensures s != "" && Stripped(s) && s[0] == 'T'
  {
    assert s[..3][0] == s[0];
  }

  /** The values that can never stop the reader. */
  lemma NeverBreaks(e: Event, k: Key)
    requires SpelledEvent(e) && FieldOf(e, k).Plain?
    requires !k.DispatchIdKey? && !k.SourceMessageKey? && !k.EquivalenceEvidenceKey?
    ensures Coerce(Emit(FieldOf(e, k).text)).Some?
  {
    hide Coerce, Emit, StateText, KindText, DigestText, SCHEMA, Stripped, TimeText, IsTimeText, SpelledGuard, IsMethodText, IsFailureText, IsTaskIdText, IsShaText, IsEventIdText, IsReferenceText;
    var s := FieldOf(e, k).text;
    if k.AcceptedCommitKey? || k.IntegratedCommitKey? {
      CoerceSha(s);
    } else if k.EventIdKey? {
      CoerceId(s);
    } else if k.EventTypeKey? {
      CoerceKind(e.kind);
    } else if k.OccurredAtKey? {
      TimeIsNoNumber(s);
      CoerceTime(s);
    } else if k.PayloadDigestKey? {
      CoerceDigest();
    } else if k.SchemaVersionKey? {
      CoerceSchema();
    } else {
      WordBreaksNever(e, k);
    }
  }

  lemma CoerceTime(s: string)
    requires IsTimeText(s)
    ensures Coerce(Emit(s)).Some?
  {
    TimeIsNoNumber(s);
    CoerceEmitted(s);
    hide Coerce, Emit, Stripped, IsDigits;
  }

  lemma WordBreaksNever(e: Event, k: Key)
    requires SpelledEvent(e) && FieldOf(e, k).Plain?
    requires k.ActorRoleKey? || k.EquivalenceMethodKey? || k.EquivalenceResultKey? || k.FailureKindKey? || k.FromStateKey?
             || k.TaskIdKey? || k.ToStateKey?
    ensures Coerce(Emit(FieldOf(e, k).text)).Some?
  {
    hide Coerce, Emit, StateText, Stripped, SpelledGuard, IsMethodText, IsFailureText, IsTaskIdText, IsShaText, IsEventIdText, IsReferenceText;
    var s := FieldOf(e, k).text;
    LiteralWords();
    StateWord(e.fromState);
    StateWord(e.toState);
    TaskIdWord(e.taskId.text);
    if k.EquivalenceMethodKey? { MethodWord(s); }
    if k.FailureKindKey? { FailureWord(s); }
    CoerceWord(s);
  }

  lemma SafeCoerces(s: string)
    requires IsSafeText(s)
    ensures Coerce(Emit(s)).None? <==> !Readable(s)
    ensures Coerce(Emit(s)).Some? ==> (Coerce(Emit(s)).value.Words? <==> !IsDigits(s)) && !Coerce(Emit(s)).value.Nothing?
  {
    CoerceEmitted(s);
    hide Coerce, Emit, IsDigits, IsCountable;
  }

  predicate BreakingKey(k: Key) {
    k.DispatchIdKey? || k.SourceMessageKey? || k.EquivalenceEvidenceKey? || k.RevisionKey? || k.AttemptKey? || k.LeaseEpochKey?
  }

  lemma OnlyTheseBreak(e: Event, k: Key)
    requires SpelledEvent(e) && Breaks(e, k)
    ensures BreakingKey(k)
  {
    hide Coerce, Emit, SpelledEvent;
    if !BreakingKey(k) {
      EmptyCoerces();
      NeverBreaks(e, k);
    }
  }

  lemma DispatchBreaks(e: Event)
    requires SpelledEvent(e)
    ensures Breaks(e, DispatchIdKey) <==> e.dispatchId.Some? && !Readable(e.dispatchId.value.text)
  {
    hide Coerce, Emit, PrintInt, IsShort, Readable, IsSafeText, SpelledGuard, IsReferenceText, IsMethodText, IsFailureText, IsTaskIdText, IsShaText, IsEventIdText;
    EmptyCoerces();
    if e.dispatchId.Some? { SafeCoerces(e.dispatchId.value.text); }
  }

  lemma SourceBreaks(e: Event)
    requires SpelledEvent(e)
    ensures Breaks(e, SourceMessageKey) <==> e.source.Some? && !Readable(e.source.value.text)
  {
    hide Coerce, Emit, PrintInt, IsShort, Readable, IsSafeText, SpelledGuard, IsReferenceText, IsMethodText, IsFailureText, IsTaskIdText, IsShaText, IsEventIdText;
    EmptyCoerces();
    if e.source.Some? { SafeCoerces(e.source.value.text); }
  }

  lemma EquivalenceBreaks(e: Event)
    requires SpelledEvent(e)
    ensures Breaks(e, EquivalenceEvidenceKey) <==> Equivalence(e).Some? && !Readable(Equivalence(e).value)
  {
    hide Coerce, Emit, PrintInt, IsShort, Readable, IsSafeText, SpelledGuard, IsReferenceText, IsMethodText, IsFailureText, IsTaskIdText, IsShaText, IsEventIdText;
    if Equivalence(e).Some? { SafeCoerces(Equivalence(e).value); }
  }

  lemma NumbersBreak(e: Event)
    ensures Breaks(e, RevisionKey) <==> !IsShort(e.revision)
    ensures Breaks(e, AttemptKey) <==> e.attempt.Some? && !IsShort(e.attempt.value)
    ensures Breaks(e, LeaseEpochKey) <==> !IsShort(e.leaseEpoch)
  {
    hide Coerce, PrintInt, IsShort;
    EmptyCoerces();
    CoerceNumber(e.revision);
    if e.attempt.Some? { CoerceNumber(e.attempt.value); }
    CoerceNumber(e.leaseEpoch);
  }

  /** The reader gets through all entries exactly when the free texts and the numbers convert. */
  lemma BreaksNowhere(e: Event)
    requires SpelledEvent(e)
    ensures (exists k :: Breaks(e, k)) <==> !Converts(e)
  {
    DispatchBreaks(e);
    SourceBreaks(e);
    EquivalenceBreaks(e);
    NumbersBreak(e);
    hide Breaks, Readable, IsShort, Equivalence, SpelledEvent;
    if exists k :: Breaks(e, k) {
      var k :| Breaks(e, k);
      OnlyTheseBreak(e, k);
    }
  }

  // ---- The schema -------------------------------------------------------------------------------------------------

  predicate IsGatedEvent(k: Kind) { k.Dispatching? || k.Acceptation? || k.Integrating? }

  lemma KindTextsDiffer(k: Kind)
    requires IsGatedEvent(k)
    ensures KindText(k) != KindText(Failing) && (KindText(k) == KindText(Dispatching) ==> k.Dispatching?)
  {
    assert KindText(Dispatching)[0] == 'T' && KindText(Acceptation)[1] == 'E' && KindText(Integrating)[0] == 'C';
    assert KindText(Failing)[0] == 'D' && KindText(Failing)[1] == 'I';
  }

  lemma PresentIsKnown(e: Event, k: Key)
    requires SpelledEvent(e) && Present(e, k)
    ensures IsKnown(k, Words(KindText(e.kind)))
  {
    hide KindText, SpelledGuard, IsReferenceText, IsMethodText, IsFailureText, IsTaskIdText, IsShaText, IsEventIdText, IsSafeText;
  }

  lemma CommonIsPresent(e: Event, k: Key)
    requires IsCommon(k)
    ensures Present(e, k)
  {
  }

  lemma ReadKey0(e: Event, r: Reading, k: Key)
    requires HasApproval(e) && ReadsOn(e, 0, NOTHING_READ, r)
    ensures k in r.top <==> Present(e, k)
    ensures Present(e, k) ==> ValueRead(e, k, r.top[k])
  {
    hide GuardsRead, ValueRead, Present, HasApproval;
    assert KeyReadOn(e, 0, NOTHING_READ, r, k);
  }

  /** What was read for a key whose value stands on one line. */
  lemma OneLineValue(e: Event, r: Reading, k: Key)
    requires HasApproval(e) && ReadsOn(e, 0, NOTHING_READ, r) && Present(e, k) && k != EvidenceRefsKey
    ensures k in r.top && Coerce(FieldText(FieldOf(e, k))) == Some(r.top[k])
  {
    hide ReadsOn, HasApproval, Present, Coerce, FieldOf, FieldText;
    ReadKey0(e, r, k);
  }

  lemma FieldTexts(e: Event)
    ensures FieldText(FieldOf(e, EventTypeKey)) == Emit(KindText(e.kind))
    ensures FieldText(FieldOf(e, SchemaVersionKey)) == Emit(SCHEMA)
    ensures FieldText(FieldOf(e, EventIdKey)) == Emit(e.id.text)
  {
    hide Emit, KindText, SCHEMA, PrintInt, DigestText;
  }

  lemma NumberTexts(e: Event)
    ensures FieldText(FieldOf(e, RevisionKey)) == PrintInt(e.revision)
    ensures FieldText(FieldOf(e, AttemptKey)) == if e.attempt.Some? then PrintInt(e.attempt.value) else "null"
    ensures FieldText(FieldOf(e, DispatchIdKey)) == if e.dispatchId.Some? then Emit(e.dispatchId.value.text) else "null"
    ensures e.extra.Digest? ==> FieldText(FieldOf(e, PayloadDigestKey)) == Emit(DigestText()) && Present(e, PayloadDigestKey)
  {
    hide Emit, KindText, SCHEMA, DigestText, PrintInt;
  }

  lemma CommonPresent(e: Event)
    ensures forall k: Key :: IsCommon(k) ==> Present(e, k)
    ensures IsCommon(EventTypeKey) && IsCommon(SchemaVersionKey) && IsCommon(EventIdKey) && IsCommon(RevisionKey)
    ensures IsCommon(AttemptKey) && IsCommon(DispatchIdKey) && IsCommon(EvidenceRefsKey)
  {
    forall k: Key | IsCommon(k) ensures Present(e, k) { CommonIsPresent(e, k); }
    hide Present;
  }

  /** The keys are those the schema wants. */
  lemma KeysFit(e: Event, r: Reading)
    requires SpelledEvent(e) && HasApproval(e) && ReadsOn(e, 0, NOTHING_READ, r)
    ensures !r.extra && (forall k: Key :: IsCommon(k) ==> k in r.top)
    ensures EventTypeKey in r.top && r.top[EventTypeKey] == Words(KindText(e.kind))
    ensures forall k :: k in r.top ==> IsKnown(k, r.top[EventTypeKey])
  {
    hide ReadsOn, HasApproval, SpelledEvent, Present, Coerce, Emit, FieldOf, FieldText, KindText, PrintInt, IsShort, SCHEMA, IsDigits, IsSafeText, DigestText, IsDigestText, IdReads, IsEventIdText, Readable, Equivalence, Converts, IsKnown, IsCommon;
    NothingExtra(e, r);
    CommonPresent(e);
    FieldTexts(e);
    OneLineValue(e, r, EventTypeKey);
    CoerceKind(e.kind);
    forall k: Key | IsCommon(k) ensures k in r.top {
      ReadKey0(e, r, k);
    }
    forall k | k in r.top ensures IsKnown(k, r.top[EventTypeKey]) {
      ReadKey0(e, r, k);
      PresentIsKnown(e, k);
    }
  }

  lemma NothingExtra(e: Event, r: Reading)
    requires HasApproval(e) && ReadsOn(e, 0, NOTHING_READ, r)
    ensures !r.extra && |r.guards| == 1 && GuardsRead(e.guards, r.guards[0])
  {
    hide GuardsRead, KeyReadOn, HasApproval;
  }

  /** The values that the schema looks at, apart from the dispatch and the event id. */
  lemma ValuesFit(e: Event, r: Reading)
    requires SpelledEvent(e) && HasApproval(e) && ReadsOn(e, 0, NOTHING_READ, r) && IsShort(e.revision)
    requires e.attempt.Some? ==> IsShort(e.attempt.value)
    ensures SchemaVersionKey in r.top && r.top[SchemaVersionKey] == Words(SCHEMA)
    ensures RevisionKey in r.top && r.top[RevisionKey].Number?
    ensures AttemptKey in r.top && (r.top[AttemptKey].Nothing? || r.top[AttemptKey].Number?)
    ensures EvidenceRefsKey in r.top && r.top[EvidenceRefsKey].Items?
  {
    hide ReadsOn, HasApproval, SpelledEvent, Present, Coerce, Emit, FieldOf, FieldText, KindText, PrintInt, IsShort, SCHEMA, IsDigits, IsSafeText, DigestText, IsDigestText, IdReads, IsEventIdText, Readable, Equivalence, Converts, IsKnown, IsCommon;
    CommonPresent(e);
    FieldTexts(e);
    NumberTexts(e);
    OneLineValue(e, r, SchemaVersionKey);
    OneLineValue(e, r, RevisionKey);
    OneLineValue(e, r, AttemptKey);
    ReadKey0(e, r, EvidenceRefsKey);
    CoerceSchema();
    CoerceNumber(e.revision);
    if e.attempt.Some? { CoerceNumber(e.attempt.value); }
    EmptyCoerces();
  }

  lemma DispatchFits(e: Event, r: Reading)
    requires SpelledEvent(e) && HasApproval(e) && ReadsOn(e, 0, NOTHING_READ, r)
    requires e.dispatchId.Some? ==> IsSafeText(e.dispatchId.value.text) && Readable(e.dispatchId.value.text)
    ensures DispatchIdKey in r.top
    ensures r.top[DispatchIdKey].Nothing? || r.top[DispatchIdKey].Words? <==>
              (e.dispatchId.Some? ==> !IsDigits(e.dispatchId.value.text))
  {
    hide ReadsOn, HasApproval, SpelledEvent, Present, Coerce, Emit, FieldOf, FieldText, KindText, PrintInt, IsShort, SCHEMA, IsDigits, IsSafeText, DigestText, IsDigestText, IdReads, IsEventIdText, Readable, Equivalence, Converts, IsKnown, IsCommon;
    CommonPresent(e);
    FieldTexts(e);
    NumberTexts(e);
    OneLineValue(e, r, DispatchIdKey);
    EmptyCoerces();
    if e.dispatchId.Some? { SafeCoerces(e.dispatchId.value.text); }
  }

  lemma IdFits(e: Event, r: Reading)
    requires SpelledEvent(e) && HasApproval(e) && ReadsOn(e, 0, NOTHING_READ, r) && IsEventIdText(e.id.text)
    ensures EventIdKey in r.top && r.top[EventIdKey].Words?
    ensures IsEventIdText(r.top[EventIdKey].text) <==> IdReads(e.id.text)
  {
    hide ReadsOn, HasApproval, SpelledEvent, Present, Coerce, Emit, FieldOf, FieldText, KindText, PrintInt, IsShort, SCHEMA, IsDigits, IsSafeText, DigestText, IsDigestText, IdReads, IsEventIdText, Readable, Equivalence, Converts, IsKnown, IsCommon;
    CommonPresent(e);
    FieldTexts(e);
    OneLineValue(e, r, EventIdKey);
    CoerceId(e.id.text);
  }

  lemma DigestFits(e: Event, r: Reading)
    requires SpelledEvent(e) && HasApproval(e) && ReadsOn(e, 0, NOTHING_READ, r) && e.extra.Digest?
    ensures PayloadDigestKey in r.top && r.top[PayloadDigestKey].Words? && IsDigestText(r.top[PayloadDigestKey].text)
  {
    hide ReadsOn, HasApproval, SpelledEvent, Present, Coerce, Emit, FieldOf, FieldText, KindText, PrintInt, IsShort, SCHEMA, IsDigits, IsSafeText, DigestText, IsDigestText, IdReads, IsEventIdText, Readable, Equivalence, Converts, IsKnown, IsCommon;
    FieldTexts(e);
    NumberTexts(e);
    OneLineValue(e, r, PayloadDigestKey);
    CoerceDigest();
  }

  lemma SpelledParts(e: Event)
    requires SpelledEvent(e) && Converts(e)
    ensures IsEventIdText(e.id.text) && IsShort(e.revision) && (e.attempt.Some? ==> IsShort(e.attempt.value))
    ensures e.dispatchId.Some? ==> IsSafeText(e.dispatchId.value.text) && Readable(e.dispatchId.value.text)
    ensures e.kind.Dispatching? ==> e.extra.Digest?
  {
    hide IsEventIdText, IsShort, IsSafeText, Readable, SpelledGuard, IsReferenceText, IsTaskIdText, IsMethodText, IsFailureText, IsShaText;
  }

  /** The schema holds exactly if the dispatch id is read as text and the event id as one. */
  lemma SchemaExactly(e: Event, r: Reading)
    requires SpelledEvent(e) && HasApproval(e) && IsGatedEvent(e.kind) && Converts(e) && ReadsOn(e, 0, NOTHING_READ, r)
    requires forall g :: g in r.guards ==> GuardComplete(g)
    ensures SchemaHolds(r) <==> IdReads(e.id.text) && (e.dispatchId.Some? ==> !IsDigits(e.dispatchId.value.text))
  {
    hide ReadsOn, HasApproval, SpelledEvent, IdReads, IsDigits, IsKnown, IsCommon, IsDigestText, IsFailureText, IsEventIdText, KindText, Converts, SCHEMA,
      GuardComplete, IsShort, IsSafeText, Readable;
    SpelledParts(e);
    KeysFit(e, r);
    ValuesFit(e, r);
    DispatchFits(e, r);
    IdFits(e, r);
    KindTextsDiffer(e.kind);
    if e.kind.Dispatching? { DigestFits(e, r); }
  }

  // ---- The guard --------------------------------------------------------------------------------------------------

  lemma EscapeKeepsLength(s: string)
    ensures |ScalarCodec.Escape(s)| >= |s|
  {
    ReplaceKeepsLength(s, '\\', "\\\\");
    ReplaceKeepsLength(ScalarCodec.ReplaceChar(s, '\\', "\\\\"), '"', "\\\"");
    hide ScalarCodec.ReplaceChar;
  }

  /** A text comes back without unquoting exactly if it was not quoted and has no white space around it. */
  lemma BareExactly(s: string)
    ensures Strip(Emit(s)) == s <==> Bare(s)
  {
    hide NeedsQuoting, ScalarCodec.Escape, Strip;
    if NeedsQuoting(s) {
      EscapeKeepsLength(s);
      QuotedStripped(ScalarCodec.Escape(s));
      StripKeeps(Emit(s));
    } else if Stripped(s) {
      StripKeeps(s);
    } else {
      StripMeans(s);
    }
  }

  lemma BareIsClean(s: string)
    requires Bare(s)
    ensures s != "" && '\0' !in s && '\r' !in s && '\n' !in s && Stripped(s)
  {
    hide IsKeyword, Lower, Strip, Stripped;
    forall i | 0 <= i < |s| ensures s[i] != '\0' && s[i] != '\r' && s[i] != '\n' { assert !IsSpecial(s[i]); }
  }

  predicate Lone(e: Event) { |e.guards| == 1 && e.guards[0].ApprovalGuard? }

  lemma TimeNonempty(t: Instant)
    ensures TimeText(t) != ""
  {
    assert |TimeText(t)| == 20;
    hide TimeText;
  }

  lemma ExtractLone(m: GuardMap, g: Guard, scope: string)
    requires g.ApprovalGuard? && m == WithApproval(NO_GUARD.(checked := Some(Words(TimeText(g.checkedAt)))), g)
    requires scope == ScopeText(g.scope)
    ensures GuardComplete(m)
    ensures var id, path := Strip(Emit(g.approvalId.text)), Strip(Emit(PathText(g.evidence)));
      Extract([m], scope) ==
        if !("APR-" <= id) || path == "" then Unreadable
        else if '\0' in id || '\r' in id || !IsSafeText(path) then Broken
        else Recovered(id, TimeText(g.checkedAt), path)
  {
    hide Strip, Emit, PathText, TimeText, ScopeText, IsSafeText, IsTimeText;
    TimeNonempty(g.checkedAt);
    var id := Strip(Emit(g.approvalId.text));
    var inputs := [Input("scope", Some(scope)), Input("approval_id", Some(id))];
    assert Inputs(m) == inputs by { assert [] + inputs == inputs; }
    assert ApprovalMaps([m]) == [m] by { assert [m][1..] == []; }
    LastInputs(scope, id);
  }

  lemma LastInputs(scope: string, id: string)
    ensures var inputs := [Input("scope", Some(scope)), Input("approval_id", Some(id))];
      LastInput(inputs, "scope") == scope && LastInput(inputs, "approval_id") == id
  {
    var inputs := [Input("scope", Some(scope)), Input("approval_id", Some(id))];
    assert |"scope"| == 5 && |"approval_id"| == 11;
    assert inputs[..1] == [inputs[0]];
  }

  /** Several guards: what is left of their times is no time. */
  lemma ExtractSeveral(m: GuardMap, t: string, scope: string)
    requires m.checked == Some(Words("\"" + t + "\"")) && IsTimeText(t)
    ensures !Extract([m], scope).Recovered?
  {
    assert !IsTimeText("\"" + t + "\"") by { assert ("\"" + t + "\"")[0] == '"'; }
    assert ApprovalMaps([m]) == [m] || ApprovalMaps([m]) == [] by { assert [m][1..] == []; }
    hide LastInput, IsTimeText;
  }

  // ---- The condition ----------------------------------------------------------------------------------------------

  /** The event's only guard is the approval's; no reference reads as an entry; the dispatch id is not all digits; texts
      and numbers convert; the ids of the event and of the approval and the path of its evidence come back as they are. */
  predicate Legible(e: Event) {
    && Lone(e) && Quiet(e.evidenceRefs) && Converts(e) && IdReads(e.id.text)
    && (e.dispatchId.Some? ==> !IsDigits(e.dispatchId.value.text))
    && Bare(e.guards[0].approvalId.text) && Bare(PathText(e.guards[0].evidence))
  }

  /** The texts of the event's approval guard. */
  function ApprovalTexts(e: Event): Recovery
    requires HasApproval(e)
  {
    GuardTexts(e.guards[|e.guards| - 1])
  }

  lemma ApprovalIdIs(e: Event)
    requires SpelledEvent(e) && Lone(e)
    ensures "APR-" <= e.guards[0].approvalId.text
  {
    assert SpelledGuard(e.guards[0]);
  }

  lemma LoneExtracts(e: Event, m: GuardMap)
    requires SpelledEvent(e) && Lone(e) && GuardsRead(e.guards, m)
    ensures GuardComplete(m)
    ensures Extract([m], ScopeText(e.guards[0].scope)) == ApprovalTexts(e) <==>
              Bare(e.guards[0].approvalId.text) && Bare(PathText(e.guards[0].evidence))
  {
    hide Strip, Emit, PathText, TimeText, ScopeText, Bare, WithApproval, Extract, SpelledEvent, GuardComplete;
    var g := e.guards[0];
    ApprovalIdIs(e);
    ExtractLone(m, g, ScopeText(g.scope));
    BareExactly(g.approvalId.text);
    BareExactly(PathText(g.evidence));
    if Bare(g.approvalId.text) { BareIsClean(g.approvalId.text); }
    if Bare(PathText(g.evidence)) { BareIsClean(PathText(g.evidence)); }
  }

  /** On a text whose references are quiet: recovered exactly if legible. */
  lemma RecoveredIfLegible(e: Event)
    requires SpelledEvent(e) && HasApproval(e) && IsGatedEvent(e.kind) && Quiet(e.evidenceRefs)
    ensures RecoverGuard(EventText(e), e.guards[|e.guards| - 1].scope) == ApprovalTexts(e) <==> Legible(e)
  {
    hide SpelledEvent, Quiet, EventText, Parse, ReadsOn, SchemaHolds, Extract, Breaks, Converts, IdReads, IsDigits, Bare, GuardsRead, PathText, TimeText, ScopeText;
    ReadAllKeys(e);
    BreaksNowhere(e);
    if Parse(EventText(e)).Some? {
      var r := Parse(EventText(e)).value;
      NothingExtra(e, r);
      assert r.guards == [r.guards[0]];
      if |e.guards| == 1 {
        LoneExtracts(e, r.guards[0]);
        SchemaExactly(e, r);
      } else {
        SeveralExtract(e, r);
      }
    }
  }

  lemma SeveralExtract(e: Event, r: Reading)
    requires HasApproval(e) && |e.guards| > 1 && |r.guards| == 1 && GuardsRead(e.guards, r.guards[0])
    ensures !Extract(r.guards, ScopeText(e.guards[|e.guards| - 1].scope)).Recovered?
  {
    var g := e.guards[|e.guards| - 1];
    assert r.guards == [r.guards[0]];
    ExtractSeveral(r.guards[0], TimeText(g.checkedAt), ScopeText(g.scope));
    hide Extract, TimeText, ScopeText;
  }

  // ---- References on one line -------------------------------------------------------------------------------------

  predicate OneLineReferences(refs: seq<Text>) { forall ref :: ref in refs ==> OneLine(ref.text) }

  /** No reference after the first has a colon. */
  predicate FewColons(refs: seq<Text>) { forall i :: 1 <= i < |refs| ==> ':' !in refs[i].text }

  lemma OneLineTexts(refs: seq<Text>)
    requires refs != [] && OneLineReferences(refs)
    ensures ReferenceText(refs) == ReferenceLines(refs)
  {
    var ls := ReferenceLines(refs);
    forall l | l in ls ensures '\n' !in l {
      var i :| 0 <= i < |refs| && l == "- " + Emit(refs[i].text);
      assert refs[i] in refs;
      EmitsOneLine(refs[i].text);
    }
    hide LineCodec.Split, Lines, Emit;
    SplitLines(ls);
  }

  lemma ReferenceEntry(s: string)
    requires s != ""
    ensures var line := "- " + Emit(s); line[0] == '-' && (IsEntry(line) <==> ':' in s)
  {
    var line := "- " + Emit(s);
    EmittedChars(s, ':');
    NotSpace();
    StripStops(line, 0);
    assert ':' in line <==> ':' in Emit(s);
    hide Strip, Emit, IsSpace;
  }

  /** References on one line each are quiet exactly if none after the first has a colon. */
  lemma QuietExactly(refs: seq<Text>)
    requires OneLineReferences(refs) && forall ref :: ref in refs ==> ref.text != ""
    ensures Quiet(refs) <==> FewColons(refs)
  {
    if refs != [] {
      OneLineTexts(refs);
      hide ReferenceText, IsEntry, Emit;
      forall i | 0 <= i < |refs| ensures IsEntry(ReferenceLines(refs)[i]) <==> ':' in refs[i].text {
        assert refs[i] in refs;
        ReferenceEntry(refs[i].text);
      }
    }
  }

  lemma {:induction false} FlatContains(blocks: seq<string>, b: string, line: string)
    requires b in blocks && line in LineCodec.Split(b)
    ensures line in Flat(blocks)
  {
    hide LineCodec.Split;
    if blocks[0] != b { FlatContains(blocks[1..], b, line); }
  }

  lemma {:induction false} BlocksContain(e: Event, keys: seq<Key>, k: Key)
    requires k in keys && !FieldOf(e, k).Absent?
    ensures Block(e, k) in Blocks(e, keys)
  {
    hide Block, FieldOf;
    if keys[0] != k { BlocksContain(e, keys[1..], k); }
  }

  lemma ReferenceLineInText(e: Event, i: nat)
    requires 1 <= i < |ReferenceText(e.evidenceRefs)| && e.evidenceRefs != []
    ensures ReferenceText(e.evidenceRefs)[i] in LineCodec.Split(EventText(e))
  {
    var refs, k := e.evidenceRefs, EvidenceRefsKey;
    var line := ReferenceText(refs)[i];
    assert FieldText(FieldOf(e, k)) == Lines(ReferenceLines(refs));
    hide LineCodec.Split, LineCodec.Join, Blocks, Flat, Name, Entry, Lines, FieldOf, FieldText;
    SplitNamed(k, Lines(ReferenceLines(refs)));
    assert line == ReferenceText(refs)[1..][i - 1];
    assert line in LineCodec.Split(Block(e, k));
    AllKeys(k);
    ReferencesPresent(e);
    BlocksContain(e, KEYS, k);
    FlatContains(Blocks(e, KEYS), Block(e, k), line);
    SplitBlocks(Blocks(e, KEYS));
  }

  lemma ReferencesPresent(e: Event)
    ensures !FieldOf(e, EvidenceRefsKey).Absent?
  {
  }

  /** A reference that reads as an entry spoils the text. */
  lemma NoisyIsUnreadable(e: Event, scope: Scope)
    requires OneLineReferences(e.evidenceRefs) && !Quiet(e.evidenceRefs)
    requires forall ref :: ref in e.evidenceRefs ==> ref.text != ""
    ensures !RecoverGuard(EventText(e), scope).Recovered?
  {
    hide ReferenceText, IsEntry, Emit, EventText, LineCodec.Split, ReadLines, Extract, SchemaHolds;
    var refs := e.evidenceRefs;
    var i :| 1 <= i < |ReferenceText(refs)| && IsEntry(ReferenceText(refs)[i]);
    OneLineTexts(refs);
    assert refs[i] in refs;
    ReferenceEntry(refs[i].text);
    ReferenceLineInText(e, i);
    var lines := LineCodec.Split(EventText(e));
    var j :| 0 <= j < |lines| && lines[j] == ReferenceText(refs)[i];
    SpuriousLine(NOTHING_READ, lines, j);
    if Parse(EventText(e)).Some? { ExtraIsUnreadable(Parse(EventText(e)).value); }
  }

  lemma ExtraIsUnreadable(r: Reading)
    requires r.extra
    ensures !SchemaHolds(r)
  {
  }

  /** The approval guard is recovered exactly from the legible texts; with line breaks in its references a text need not
      be legible to be recovered from. */
  lemma RecoveredExactly(e: Event)
    requires SpelledEvent(e) && HasApproval(e) && IsGatedEvent(e.kind)
    ensures Legible(e) ==> RecoverGuard(EventText(e), e.guards[|e.guards| - 1].scope) == ApprovalTexts(e)
    ensures OneLineReferences(e.evidenceRefs) && RecoverGuard(EventText(e), e.guards[|e.guards| - 1].scope) == ApprovalTexts(e) ==>
              Legible(e)
  {
    hide RecoverGuard, Legible, SpelledEvent, EventText, ApprovalTexts;
    if Quiet(e.evidenceRefs) {
      RecoveredIfLegible(e);
    } else {
      if Legible(e) { LegibleIsQuiet(e); }
      ReferencesNonempty(e);
      if OneLineReferences(e.evidenceRefs) { NoisyIsUnreadable(e, e.guards[|e.guards| - 1].scope); }
      ApprovalTextsAre(e);
    }
  }

  lemma LegibleIsQuiet(e: Event)
    requires Legible(e)
    ensures Quiet(e.evidenceRefs)
  {
  }

  lemma ReferencesNonempty(e: Event)
    requires SpelledEvent(e)
    ensures forall ref :: ref in e.evidenceRefs ==> ref.text != ""
  {
  }

  lemma ApprovalTextsAre(e: Event)
    requires HasApproval(e)
    ensures ApprovalTexts(e).Recovered?
  {
  }
}
