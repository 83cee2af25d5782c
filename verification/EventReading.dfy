/** When a gated replay recovers the approval guard from the text of an event. */
module EventReading {
  import opened Wrappers
  import opened Texts
  import opened Approvals
  import opened Ledger
  import opened Events
  import opened EventReader
  import opened EventLines
  import opened EventGuards
  import LineCodec
  import Decimal
  import ScalarCodec

  // ---- What the constructors enforce of the texts -----------------------------------------------------------------

  /** `TC-[0-9]{3,}`. */
  predicate IsTaskIdText(s: string) {
    |s| >= 6 && s[..3] == "TC-" && forall i :: 3 <= i < |s| ==> '0' <= s[i] <= '9'
  }

  predicate IsMethodText(s: string) { s == "patch_id" || s == "tree" || s == "approved_mapping" }

  /** References may contain line feeds; every other text stands on one line. */
  predicate IsReferenceText(s: string) { s != "" && Stripped(s) }

  predicate SpelledExtra(kind: Kind, x: Extra) {
    match x
    case NoExtra => !kind.Dispatching? && !kind.Integrating? && !kind.Failing?
    case Digest(_) => kind.Dispatching?
    case FailureKind(failure) => kind.Failing? && IsFailureText(failure.text)
    case Integration(integrated, accepted, equivalence) =>
      && kind.Integrating? && IsShaText(integrated.text) && (accepted.Some? ==> IsShaText(accepted.value.text))
      && (equivalence.Some? ==>
            IsMethodText(equivalence.value.0.text)
            && (equivalence.value.1.Some? ==> IsSafeText(equivalence.value.1.value.text)))
  }

  predicate SpelledEvent(e: Event) {
    && IsEventIdText(e.id.text) && IsTaskIdText(e.taskId.text)
    && (e.dispatchId.Some? ==> IsSafeText(e.dispatchId.value.text))
    && (e.source.Some? ==> IsSafeText(e.source.value.text))
    && (forall ref :: ref in e.evidenceRefs ==> IsReferenceText(ref.text))
    && (forall g :: g in e.guards ==> SpelledGuard(g))
    && SpelledExtra(e.kind, e.extra)
  }

  // ---- Single entries ---------------------------------------------------------------------------------------------

  lemma ReadOne(s: Reading, line: string, rest: seq<string>)
    ensures ReadLines(s, [line] + rest) == match ReadLine(s, line) case None => None case Some(t) => ReadLines(t, rest)
  {
    assert ([line] + rest)[1..] == rest;
    hide ReadLine;
  }

  /** The entry of a value on one line. */
  lemma ReadScalar(s: Reading, k: Key, text: string)
    requires k != GuardResultsKey && Strip(text) != "" && OneLine(text)
    ensures ReadLines(s, LineCodec.Split(Entry(Name(k), text))) ==
      match Coerce(text) case None => None case Some(v) => Some(s.(top := s.top[k := v]))
  {
    hide Name, Coerce, Strip, LineCodec.Split, ReadLine, Signature, IsNameText, Stripped;
    NameShape(k);
    NameIsEntry(Name(k));
    SplitNoFeed(Entry(Name(k), text));
    ReadNamed(s, k, text);
    ReadOne(s, Entry(Name(k), text), []);
    assert [Entry(Name(k), text)] + [] == [Entry(Name(k), text)];
  }

  // ---- References -------------------------------------------------------------------------------------------------

  function ReferenceText(refs: seq<Text>): seq<string> { LineCodec.Split(Lines(ReferenceLines(refs))) }

  /** No line of the references but the first reads as an entry of the document. */
  predicate Quiet(refs: seq<Text>) {
    refs != [] ==> forall i :: 1 <= i < |ReferenceText(refs)| ==> !IsEntry(ReferenceText(refs)[i])
  }

  lemma SplitHead(text: string, n: nat)
    requires n <= |text| && '\n' !in text[..n]
    ensures text[..n] <= LineCodec.Split(text)[0]
  {
    SplitFront(text[..n], text[n..]);
    assert text[..n] + text[n..] == text;
    hide LineCodec.Split;
  }

  lemma EmittedHead(s: string)
    requires IsReferenceText(s)
    ensures |Emit(s)| > 0 && !IsSpace(Emit(s)[0])
  {
    hide IsSpace, ScalarCodec.Escape, NeedsQuoting;
    assert !IsSpace('"') by { NotSpace(); }
  }

  lemma NotSpace()
    ensures !IsSpace('"') && IsSpace('\n') && !IsSpace('-') && IsSpace(' ')
  {
  }

  /** The first line of the references reads as a list. */
  lemma ReferencesCoerce(refs: seq<Text>)
    requires refs != [] && IsReferenceText(refs[0].text)
    ensures var head := ReferenceText(refs)[0];
      Strip(head) != "" && Coerce(head).Some? && Coerce(head).value.Items?
  {
    var text, head := Lines(ReferenceLines(refs)), ReferenceText(refs)[0];
    EmittedHead(refs[0].text);
    NotSpace();
    hide Emit, LineCodec.Split, IsSpace;
    assert text[..2] == "- " && text[2] == Emit(refs[0].text)[0];
    assert '\n' !in text[..3];
    SplitHead(text, 3);
    hide Lines, ReferenceLines, ReferenceText;
    ItemsCoerce(head);
  }

  lemma ItemsCoerce(head: string)
    requires |head| >= 3 && head[..2] == "- " && !IsSpace(head[2])
    ensures Strip(head) != "" && Coerce(head).Some? && Coerce(head).value.Items?
  {
    NotSpace();
    hide Strip, IsSpace, Coerce, Stripped;
    var v := Strip(head);
    DashStays(head);
    CoerceStripped(head);
    DashCoerces(v);
  }

  lemma DashStays(head: string)
    requires |head| >= 3 && head[..2] == "- " && !IsSpace(head[2])
    ensures var v := Strip(head); |v| >= 3 && v[0] == '-' && v[1] == ' ' && Strip(v) == v
  {
    NotSpace();
    hide Strip, IsSpace, Stripped;
    assert head[0] == head[..2][0] && head[1] == head[..2][1];
    StripStops(head, 2);
    StripMeans(head);
    var v := Strip(head);
    assert v[0] == v[..3][0] && v[1] == v[..3][1];
  }

  lemma DashCoerces(v: string)
    requires |v| >= 3 && v[0] == '-' && v[1] == ' ' && Strip(v) == v
    ensures Coerce(v) == Some(Items([v[2..]]))
  {
    hide Strip, IsDigits, IsFlagWord, Converted, Coerce;
    NoDigits(v);
    NoDigits(v[1..]);
    NoWord(v);
    assert v[..2] == "- ";
    ItemCoerces(v);
  }

  lemma ItemCoerces(v: string)
    requires |v| >= 3 && v[..2] == "- " && v[0] == '-' && Strip(v) == v
    requires v != "null" && !IsFlagWord(v) && !IsDigits(v) && !IsDigits(v[1..])
    ensures Coerce(v) == Some(Items([v[2..]]))
  {
    hide Strip, IsDigits, IsFlagWord, Converted;
    BracketsAreShort();
  }

  lemma BracketsAreShort()
    ensures |"[]"| == 2 && |"{}"| == 2
  {
  }

  lemma ReadReferences(s: Reading, refs: seq<Text>) returns (items: seq<string>)
    requires s.guards == [] && Quiet(refs) && forall ref :: ref in refs ==> IsReferenceText(ref.text)
    ensures ReadLines(s, LineCodec.Split(Entry(Name(EvidenceRefsKey), FieldText(References(refs)))))
         == Some(s.(top := s.top[EvidenceRefsKey := Items(items)]))
  {
    if refs == [] {
      items := [];
      EmptyCoerces();
      hide Name, Coerce, Strip, LineCodec.Split, ReadLines, Entry;
      ReadScalar(s, EvidenceRefsKey, "[]");
    } else {
      items := ReadSomeReferences(s, refs);
    }
  }

  lemma EmptyCoerces()
    ensures Strip("[]") == "[]" && Coerce("[]") == Some(Items([])) && Strip("null") == "null" && Coerce("null") == Some(Nothing)
  {
    StripKeeps("[]");
    StripKeeps("null");
    NoDigits("[]");
    assert "[]"[0] == '[';
    NoWord("[]");
    hide Strip, IsDigits, IsFlagWord;
  }

  lemma ReadSomeReferences(s: Reading, refs: seq<Text>) returns (items: seq<string>)
    requires s.guards == [] && refs != [] && Quiet(refs) && forall ref :: ref in refs ==> IsReferenceText(ref.text)
    ensures ReadLines(s, LineCodec.Split(Entry(Name(EvidenceRefsKey), FieldText(References(refs)))))
         == Some(s.(top := s.top[EvidenceRefsKey := Items(items)]))
  {
    hide Name, Coerce, Strip, LineCodec.Split, Lines, ReferenceLines, IsEntry, ReadLine, IsReferenceText;
    var lines := ReferenceText(refs);
    assert refs[0] in refs;
    ReferencesCoerce(refs);
    SplitNamed(EvidenceRefsKey, Lines(ReferenceLines(refs)));
    ReadNamed(s, EvidenceRefsKey, lines[0]);
    items := Coerce(lines[0]).value.items;
    var t := s.(top := s.top[EvidenceRefsKey := Items(items)]);
    ReadOne(s, Entry(Name(EvidenceRefsKey), lines[0]), lines[1..]);
    forall line | line in lines[1..] ensures !IsEntry(line) {
      var i :| 0 <= i < |lines[1..]| && lines[1..][i] == line;
      assert lines[i + 1] == line;
    }
    ReadQuiet(t, lines[1..]);
  }

  lemma SplitNamed(k: Key, text: string)
    ensures LineCodec.Split(Entry(Name(k), text)) == [Entry(Name(k), LineCodec.Split(text)[0])] + LineCodec.Split(text)[1..]
  {
    hide Name, LineCodec.Split, Signature, IsNameText, Stripped;
    NameShape(k);
    NameIsEntry(Name(k));
    SplitFront(Name(k) + ": ", text);
    assert Name(k) + ": " + text == Entry(Name(k), text);
    assert Name(k) + ": " + LineCodec.Split(text)[0] == Entry(Name(k), LineCodec.Split(text)[0]);
  }

  // ---- Values on one line -----------------------------------------------------------------------------------------

  predicate IsTame(s: string) { s != "" && !IsSpace(s[0]) && OneLine(s) }

  lemma StatesAreTame(s: State)
    ensures IsTame(StateText(s))
  {
  }

  predicate IsUpperText(s: string) { |s| > 8 && forall i :: 0 <= i < |s| ==> 'A' <= s[i] <= 'Z' || s[i] == '_' }

  lemma KindsAreUpper(k: Kind)
    ensures IsUpperText(KindText(k)) && KindText(k)[0] != '_' && KindText(k)[|KindText(k)| - 1] != '_'
  {
    hide IsUpperText;
    if k.Specification? || k.Dispatching? || k.Acknowledgement? || k.Submission? || k.Acceptation? {
      SomeKindsAreUpper(k);
    } else if k.Return? || k.Requeue? || k.Integrating? || k.Blocking? || k.IntegrationFailing? {
      MoreKindsAreUpper(k);
    } else if k.Resolution? || k.Rescoping? || k.BlockerCancelling? {
      BlockerKindsAreUpper(k);
    } else {
      LastKindsAreUpper(k);
    }
  }

  lemma SomeKindsAreUpper(k: Kind)
    requires k.Specification? || k.Dispatching? || k.Acknowledgement? || k.Submission? || k.Acceptation?
    ensures IsUpperText(KindText(k)) && KindText(k)[0] != '_' && KindText(k)[|KindText(k)| - 1] != '_'
  {
  }

  lemma MoreKindsAreUpper(k: Kind)
    requires k.Return? || k.Requeue? || k.Integrating? || k.Blocking? || k.IntegrationFailing?
    ensures IsUpperText(KindText(k)) && KindText(k)[0] != '_' && KindText(k)[|KindText(k)| - 1] != '_'
  {
  }

  lemma BlockerKindsAreUpper(k: Kind)
    requires k.Resolution? || k.Rescoping? || k.BlockerCancelling?
    ensures IsUpperText(KindText(k)) && KindText(k)[0] != '_' && KindText(k)[|KindText(k)| - 1] != '_'
  {
  }

  lemma LastKindsAreUpper(k: Kind)
    requires k.Cancelling? || k.Superseding? || k.Failing?
    ensures IsUpperText(KindText(k)) && KindText(k)[0] != '_' && KindText(k)[|KindText(k)| - 1] != '_'
  {
  }

  lemma UpperIsTame(s: string)
    requires IsUpperText(s)
    ensures IsTame(s)
  {
  }

  lemma LiteralsAreTame()
    ensures IsTame("PM") && IsTame("passed") && IsTame(SCHEMA)
  {
  }

  lemma DigestIsTame()
    ensures IsTame(DigestText())
  {
    assert DigestText()[0] == 's' && OneLine("sha256:");
  }

  lemma CheckedTextsAreTame(s: string)
    requires IsSafeText(s) || IsEventIdText(s) || IsTaskIdText(s) || IsShaText(s) || IsTimeText(s)
    ensures IsTame(s)
  {
    if IsEventIdText(s) { assert s[..4][0] == s[0]; }
    if IsTaskIdText(s) { assert s[..3][0] == s[0] && s[..3][1] == s[1] && s[..3][2] == s[2]; }
  }

  lemma MethodIsTame(s: string)
    requires IsMethodText(s)
    ensures IsTame(s)
  {
  }

  lemma FailureIsTame(s: string)
    requires IsFailureText(s)
    ensures IsTame(s)
  {
  }

  lemma PlainIsTame(e: Event, k: Key)
    requires SpelledEvent(e) && FieldOf(e, k).Plain?
    ensures IsTame(FieldOf(e, k).text)
  {
    hide IsTame, KindText, StateText, IsUpperText, IsSafeText, IsEventIdText, IsTaskIdText, IsShaText, IsTimeText, TimeText, IsMethodText, IsFailureText, SpelledGuard, IsReferenceText, DigestText, SCHEMA;
    var s := FieldOf(e, k).text;
    LiteralsAreTame();
    DigestIsTame();
    StatesAreTame(e.fromState);
    StatesAreTame(e.toState);
    if k.EventTypeKey? {
      KindsAreUpper(e.kind);
      UpperIsTame(s);
    } else if k.EquivalenceMethodKey? {
      MethodIsTame(s);
    } else if k.FailureKindKey? {
      FailureIsTame(s);
    } else if IsSafeText(s) || IsEventIdText(s) || IsTaskIdText(s) || IsShaText(s) || IsTimeText(s) {
      CheckedTextsAreTame(s);
    }
  }

  lemma EmittedFits(s: string)
    requires IsTame(s)
    ensures Strip(Emit(s)) != "" && OneLine(Emit(s))
  {
    EmitsOneLine(s);
    NotSpace();
    hide IsSpace, NeedsQuoting, ScalarCodec.Escape;
    StripStops(Emit(s), 0);
  }

  lemma NumberFits(n: int)
    ensures Strip(PrintInt(n)) != "" && OneLine(PrintInt(n))
  {
    NumberIsOneLine(n);
    StripStops(PrintInt(n), 0);
    hide Strip;
  }

  lemma ScalarFields(e: Event, k: Key)
    requires k != EvidenceRefsKey && k != GuardResultsKey
    ensures !FieldOf(e, k).References? && !FieldOf(e, k).Guards?
  {
    hide KindText, StateText, TimeText, DigestText, SCHEMA;
  }

  lemma ScalarFits(e: Event, k: Key)
    requires SpelledEvent(e) && !FieldOf(e, k).Absent? && k != EvidenceRefsKey && k != GuardResultsKey
    ensures Strip(FieldText(FieldOf(e, k))) != "" && OneLine(FieldText(FieldOf(e, k)))
  {
    hide SpelledEvent, Emit, Strip, PrintInt, IsTame, FieldOf, OneLine;
    ScalarFields(e, k);
    var f := FieldOf(e, k);
    if f.Plain? {
      PlainIsTame(e, k);
      EmittedFits(f.text);
    } else if f.Integer? {
      NumberFits(f.number);
    } else {
      NullFits();
    }
  }

  lemma NullFits()
    ensures Strip("null") != "" && OneLine("null")
  {
    EmptyCoerces();
    hide Strip;
  }

  // ---- The whole text ---------------------------------------------------------------------------------------------

  function Rank(k: Key): nat {
    match k
    case AcceptedCommitKey => 0
    case ActorRoleKey => 1
    case AttemptKey => 2
    case DispatchIdKey => 3
    case EquivalenceEvidenceKey => 4
    case EquivalenceMethodKey => 5
    case EquivalenceResultKey => 6
    case EventIdKey => 7
    case EventTypeKey => 8
    case EvidenceRefsKey => 9
    case FailureKindKey => 10
    case FromStateKey => 11
    case GuardResultsKey => 12
    case IntegratedCommitKey => 13
    case LeaseEpochKey => 14
    case OccurredAtKey => 15
    case PayloadDigestKey => 16
    case RevisionKey => 17
    case SchemaVersionKey => 18
    case SourceMessageKey => 19
    case TaskIdKey => 20
    case ToStateKey => 21
  }

  lemma KeyRank(i: nat)
    requires i < |KEYS|
    ensures Rank(KEYS[i]) == i && |KEYS| == 22
  {
  }

  lemma RankKey(k: Key)
    ensures Rank(k) < |KEYS| && KEYS[Rank(k)] == k
  {
  }

  /** An entry of its own in the text, besides the guards. */
  predicate Present(e: Event, k: Key) { k != GuardResultsKey && !FieldOf(e, k).Absent? }

  /** An entry at which the reader fails. */
  predicate Breaks(e: Event, k: Key) {
    Present(e, k) && k != EvidenceRefsKey && Coerce(FieldText(FieldOf(e, k))).None?
  }

  predicate ValueRead(e: Event, k: Key, v: Value) {
    if k == EvidenceRefsKey then v.Items? else Coerce(FieldText(FieldOf(e, k))) == Some(v)
  }

  predicate HasApproval(e: Event) { e.guards != [] && e.guards[|e.guards| - 1].ApprovalGuard? }

  /** What the entries of the keys from number `i` on make of one key. */
  predicate KeyReadOn(e: Event, i: nat, s: Reading, r: Reading, k: Key) {
    && (k in r.top <==> k in s.top || (Rank(k) >= i && Present(e, k)))
    && (Rank(k) >= i && Present(e, k) ==> ValueRead(e, k, r.top[k]))
    && (k in s.top && Rank(k) < i ==> r.top[k] == s.top[k])
  }

  predicate RestReadOn(e: Event, i: nat, s: Reading, r: Reading)
    requires HasApproval(e)
  {
    && r.extra == s.extra
    && (if i <= 12 then |r.guards| == 1 && GuardsRead(e.guards, r.guards[0]) else r.guards == s.guards)
  }

  /** What the entries of the keys from number `i` on turn one reading into. */
  predicate ReadsOn(e: Event, i: nat, s: Reading, r: Reading)
    requires HasApproval(e)
  {
    RestReadOn(e, i, s, r) && forall k :: KeyReadOn(e, i, s, r, k)
  }

  /** What one entry turns a reading into. */
  ghost predicate ReadsEntry(e: Event, k: Key, s: Reading, r: Reading)
    requires HasApproval(e)
  {
    if k == GuardResultsKey then
      r.top == s.top && r.extra == s.extra && |r.guards| == 1 && GuardsRead(e.guards, r.guards[0])
    else exists v :: ValueRead(e, k, v) && r == s.(top := s.top[k := v])
  }

  lemma ReadEntryOf(e: Event, k: Key, s: Reading)
    requires SpelledEvent(e) && HasApproval(e) && Quiet(e.evidenceRefs)
    requires !FieldOf(e, k).Absent? && (Rank(k) <= 12 ==> s.guards == [])
    ensures ReadLines(s, LineCodec.Split(Block(e, k))).None? <==> Breaks(e, k)
    ensures !Breaks(e, k) ==> ReadsEntry(e, k, s, ReadLines(s, LineCodec.Split(Block(e, k))).value)
  {
    hide LineCodec.Split, Name, Coerce, ReadLines, GuardsRead, Entry, Quiet, Strip, FieldText;
    if k == GuardResultsKey {
      var m := ReadGuards(s, e.guards);
      assert s.guards == [] ==> s.guards + [m] == [m];
    } else if k == EvidenceRefsKey {
      var items := ReadReferences(s, e.evidenceRefs);
      assert ValueRead(e, k, Items(items));
    } else {
      var text := FieldText(FieldOf(e, k));
      ScalarFits(e, k);
      ReadScalar(s, k, text);
      assert Coerce(text).Some? ==> ValueRead(e, k, Coerce(text).value);
    }
    hide SpelledEvent;
  }

  lemma BlocksAt(e: Event, i: nat)
    requires i < |KEYS|
    ensures Flat(Blocks(e, KEYS[i..])) ==
      (if FieldOf(e, KEYS[i]).Absent? then [] else LineCodec.Split(Block(e, KEYS[i]))) + Flat(Blocks(e, KEYS[i + 1..]))
  {
    hide LineCodec.Split, Block, FieldOf;
    var keys := KEYS[i..];
    assert keys[0] == KEYS[i] && keys[1..] == KEYS[i + 1..];
    hide KEYS;
    var rest := Blocks(e, keys[1..]);
    if !FieldOf(e, keys[0]).Absent? {
      var b := Block(e, keys[0]);
      assert ([b] + rest)[0] == b && ([b] + rest)[1..] == rest;
    } else {
      assert [] + rest == rest;
    }
  }

  lemma KeyAt(i: nat, k: Key)
    requires i < |KEYS|
    ensures Rank(k) == i <==> k == KEYS[i]
  {
    KeyRank(i);
    RankKey(k);
    hide KEYS, Rank;
  }

  lemma GuardRank(k: Key)
    ensures Rank(k) == 12 <==> k == GuardResultsKey
  {
  }

  lemma TakeKey(e: Event, i: nat, s: Reading, t: Reading, r: Reading)
    requires i < |KEYS| && HasApproval(e) && !FieldOf(e, KEYS[i]).Absent?
    requires ReadsEntry(e, KEYS[i], s, t) && ReadsOn(e, i + 1, t, r)
    ensures ReadsOn(e, i, s, r)
  {
    hide KEYS, Rank, FieldOf, GuardsRead, ValueRead, HasApproval, KeyReadOn;
    KeyAt(i, KEYS[i]);
    GuardRank(KEYS[i]);
    forall l ensures KeyReadOn(e, i, s, r, l) {
      assert KeyReadOn(e, i + 1, t, r, l);
      TakeKeyAt(e, i, s, t, r, l);
    }
  }

  lemma TakeKeyAt(e: Event, i: nat, s: Reading, t: Reading, r: Reading, l: Key)
    requires i < |KEYS| && HasApproval(e) && !FieldOf(e, KEYS[i]).Absent?
    requires ReadsEntry(e, KEYS[i], s, t) && KeyReadOn(e, i + 1, t, r, l)
    ensures KeyReadOn(e, i, s, r, l)
  {
    hide KEYS, Rank, FieldOf, GuardsRead, ValueRead, HasApproval;
    KeyAt(i, l);
    KeyAt(i, KEYS[i]);
  }

  lemma SkipKey(e: Event, i: nat, s: Reading, r: Reading)
    requires i < |KEYS| && HasApproval(e) && FieldOf(e, KEYS[i]).Absent? && ReadsOn(e, i + 1, s, r)
    ensures ReadsOn(e, i, s, r)
  {
    GuardsPresent(e, KEYS[i]);
    hide KEYS, Rank, FieldOf, GuardsRead, ValueRead, HasApproval, KeyReadOn;
    KeyAt(i, KEYS[i]);
    GuardRank(KEYS[i]);
    forall l ensures KeyReadOn(e, i, s, r, l) {
      assert KeyReadOn(e, i + 1, s, r, l);
      SkipKeyAt(e, i, s, r, l);
    }
  }

  lemma GuardsPresent(e: Event, k: Key)
    ensures k == GuardResultsKey ==> !FieldOf(e, k).Absent?
  {
  }

  lemma SkipKeyAt(e: Event, i: nat, s: Reading, r: Reading, l: Key)
    requires i < |KEYS| && FieldOf(e, KEYS[i]).Absent? && KeyReadOn(e, i + 1, s, r, l)
    ensures KeyReadOn(e, i, s, r, l)
  {
    hide KEYS, Rank, FieldOf, ValueRead;
    KeyAt(i, l);
  }

  lemma BreaksFrom(e: Event, i: nat)
    requires i < |KEYS|
    ensures (exists k :: Rank(k) >= i && Breaks(e, k)) <==> Breaks(e, KEYS[i]) || exists k :: Rank(k) >= i + 1 && Breaks(e, k)
  {
    hide Rank, Breaks, KEYS;
    KeyAt(i, KEYS[i]);
    forall l ensures Rank(l) == i <==> l == KEYS[i] { KeyAt(i, l); }
  }

  lemma EndOfKeys(e: Event, s: Reading)
    requires HasApproval(e)
    ensures ReadLines(s, Flat(Blocks(e, KEYS[|KEYS|..]))) == Some(s) && ReadsOn(e, |KEYS|, s, s)
    ensures forall k :: Rank(k) < |KEYS|
  {
    assert KEYS[|KEYS|..] == [] && |KEYS| == 22;
    hide KEYS, FieldOf, ValueRead, GuardsRead, HasApproval, Rank;
    forall k ensures Rank(k) < |KEYS| { RankKey(k); }
  }

  /** The entries from key number `i` on, one after the other. */
  lemma {:induction false} ReadFrom(e: Event, i: nat, s: Reading)
    requires i <= |KEYS| && SpelledEvent(e) && HasApproval(e) && Quiet(e.evidenceRefs) && (i <= 12 ==> s.guards == [])
    ensures var r := ReadLines(s, Flat(Blocks(e, KEYS[i..])));
      && (r.None? <==> exists k :: Rank(k) >= i && Breaks(e, k))
      && (r.Some? ==> ReadsOn(e, i, s, r.value))
    decreases |KEYS| - i, 1
  {
    hide LineCodec.Split, Block, FieldOf, SpelledEvent, Quiet, HasApproval, ReadLine, Blocks, Flat, ReadLines, ReadsOn, Breaks, Rank, KEYS;
    if i == |KEYS| {
      EndOfKeys(e, s);
    } else {
      BlocksAt(e, i);
      BreaksFrom(e, i);
      var rest := Flat(Blocks(e, KEYS[i + 1..]));
      if FieldOf(e, KEYS[i]).Absent? {
        assert [] + rest == rest;
        NotBroken(e, KEYS[i]);
        ReadFrom(e, i + 1, s);
        if ReadLines(s, rest).Some? { SkipKey(e, i, s, ReadLines(s, rest).value); }
      } else {
        ReadOnFrom(e, i, s);
      }
    }
  }

  lemma NotBroken(e: Event, k: Key)
    requires FieldOf(e, k).Absent?
    ensures !Breaks(e, k)
  {
  }

  lemma ReadOnFrom(e: Event, i: nat, s: Reading)
    requires i < |KEYS| && SpelledEvent(e) && HasApproval(e) && Quiet(e.evidenceRefs) && (i <= 12 ==> s.guards == [])
    requires !FieldOf(e, KEYS[i]).Absent?
    ensures var r := ReadLines(s, Flat(Blocks(e, KEYS[i..])));
      && (r.None? <==> exists k :: Rank(k) >= i && Breaks(e, k))
      && (r.Some? ==> ReadsOn(e, i, s, r.value))
    decreases |KEYS| - i, 0
  {
    hide LineCodec.Split, Block, FieldOf, SpelledEvent, Quiet, HasApproval, ReadLine, Blocks, Flat, ReadLines, ReadsOn, Breaks, Rank, KEYS,
      ReadsEntry;
    var k, rest := KEYS[i], Flat(Blocks(e, KEYS[i + 1..]));
    BlocksAt(e, i);
    BreaksFrom(e, i);
    KeyAt(i, k);
    GuardRank(k);
    ReadConcat(s, LineCodec.Split(Block(e, k)), rest);
    ReadEntryOf(e, k, s);
    if ReadLines(s, LineCodec.Split(Block(e, k))).Some? {
      var t := ReadLines(s, LineCodec.Split(Block(e, k))).value;
      EntryKeepsGuards(e, k, s, t);
      ReadFrom(e, i + 1, t);
      if ReadLines(t, rest).Some? { TakeKey(e, i, s, t, ReadLines(t, rest).value); }
    }
  }

  lemma EntryKeepsGuards(e: Event, k: Key, s: Reading, t: Reading)
    requires HasApproval(e) && ReadsEntry(e, k, s, t)
    ensures k != GuardResultsKey ==> t.guards == s.guards
  {
    hide ValueRead, GuardsRead;
  }

  /** The whole text. */
  lemma ReadAllKeys(e: Event)
    requires SpelledEvent(e) && HasApproval(e) && Quiet(e.evidenceRefs)
    ensures Parse(EventText(e)).None? <==> exists k :: Breaks(e, k)
    ensures Parse(EventText(e)).Some? ==> ReadsOn(e, 0, NOTHING_READ, Parse(EventText(e)).value)
  {
    hide LineCodec.Split, LineCodec.Join, Blocks, Flat, FieldOf, SpelledEvent, Quiet, HasApproval, ReadLine, ReadLines, ReadsOn, Breaks, KEYS;
    SplitBlocks(Blocks(e, KEYS));
    assert KEYS[0..] == KEYS;
    ReadFrom(e, 0, NOTHING_READ);
    ReadConcat(NOTHING_READ, Flat(Blocks(e, KEYS)), [""]);
    if ReadLines(NOTHING_READ, Flat(Blocks(e, KEYS))).Some? {
      BlankLine(ReadLines(NOTHING_READ, Flat(Blocks(e, KEYS))).value);
    }
    assert forall k :: Rank(k) >= 0;
    hide Rank;
  }

  lemma BlankLine(s: Reading)
    ensures ReadLines(s, [""]) == Some(s)
  {
    ReadOne(s, "", []);
    assert [""] + [] == [""];
    assert IsBlank("");
  }
}
