/** Exactly which texts of gated events give back their approval guard, whatever their references look like. */
module EventTexts {
  import opened Wrappers
  import opened Texts
  import opened Approvals
  import opened Ledger
  import opened Events
  import opened EventReader
  import opened EventLines
  import opened EventGuards
  import opened EventReading
  import opened EventRecovery
  import opened EventValues
  import LineCodec

  // ---- Guards and unknown keys --------------------------------------------------------------------------------------

  /** Which guards a line starts or fills, and whether its key is unknown, does not depend on the entries before it. */
  lemma LineTwin(s: Reading, t: Reading, b: bool, line: string)
    requires s.guards == t.guards && s.extra == (b || t.extra) && ReadLine(s, line).Some? && ReadLine(t, line).Some?
    ensures var (s', t') := (ReadLine(s, line).value, ReadLine(t, line).value);
      s'.guards == t'.guards && s'.extra == (b || t'.extra)
  {
    hide Partition, Coerce, Find, IsBlank, IsEntry, IsIndented, ReadGuardLine, SetField;
  }

  lemma {:induction false} Twin(s: Reading, t: Reading, b: bool, lines: seq<string>)
    requires s.guards == t.guards && s.extra == (b || t.extra)
    ensures ReadLines(s, lines).Some? <==> ReadLines(t, lines).Some?
    ensures ReadLines(s, lines).Some? ==>
              var (s', t') := (ReadLines(s, lines).value, ReadLines(t, lines).value);
              s'.guards == t'.guards && s'.extra == (b || t'.extra)
    decreases |lines|
  {
    hide ReadLine;
    if lines != [] {
      LineIndependent(s, lines[0]);
      LineIndependent(t, lines[0]);
      if ReadLine(s, lines[0]).Some? {
        LineTwin(s, t, b, lines[0]);
        Twin(ReadLine(s, lines[0]).value, ReadLine(t, lines[0]).value, b, lines[1..]);
      }
    }
  }

  /** What the lines of the references open, and whether they have unknown keys. */
  function TailGuards(e: Event): seq<GuardMap> { if Alone(Tail(e)).Some? then Alone(Tail(e)).value.guards else [] }

  predicate TailExtra(e: Event) { Alone(Tail(e)).Some? && Alone(Tail(e)).value.extra }

  /** What one entry does to the guards and to the mark of unknown keys. */
  ghost predicate Tracks(e: Event, key: Key, s: Reading, t: Reading)
    requires HasApproval(e)
  {
    if key == EvidenceRefsKey then t.guards == TailGuards(e) && t.extra == (s.extra || TailExtra(e))
    else if key == GuardResultsKey then t.extra == s.extra && exists m :: GuardsRead(e.guards, m) && t.guards == s.guards + [m]
    else t.guards == s.guards && t.extra == s.extra
  }

  lemma BlockTracks(e: Event, key: Key, s: Reading)
    requires SpelledEvent(e) && HasApproval(e) && !FieldOf(e, key).Absent? && (key == EvidenceRefsKey ==> s.guards == [])
    ensures var r := ReadLines(s, LineCodec.Split(Block(e, key))); r.Some? ==> Tracks(e, key, s, r.value)
  {
    hide LineCodec.Split, ReadLines, GuardsRead, Block, FieldOf, SpelledEvent, TailGuards, TailExtra, HasApproval;
    if key == GuardResultsKey {
      GuardsTrack(e, s);
    } else if key == EvidenceRefsKey {
      ReferencesTrack(e, s);
    } else {
      ScalarTracks(e, key, s);
    }
  }

  lemma ScalarTracks(e: Event, key: Key, s: Reading)
    requires SpelledEvent(e) && !FieldOf(e, key).Absent? && key != EvidenceRefsKey && key != GuardResultsKey
    ensures var r := ReadLines(s, LineCodec.Split(Block(e, key)));
      r.Some? ==> r.value.guards == s.guards && r.value.extra == s.extra
  {
    hide LineCodec.Split, Name, Coerce, ReadLines, Entry, Strip, FieldText, SpelledEvent;
    ScalarFits(e, key);
    ReadScalar(s, key, FieldText(FieldOf(e, key)));
  }

  lemma GuardsTrack(e: Event, s: Reading)
    requires SpelledEvent(e) && HasApproval(e)
    ensures var r := ReadLines(s, LineCodec.Split(Block(e, GuardResultsKey)));
      r.Some? ==> Tracks(e, GuardResultsKey, s, r.value)
  {
    GuardsAreSpelled(e);
    assert FieldOf(e, GuardResultsKey) == Guards(e.guards);
    hide LineCodec.Split, Name, ReadLines, GuardsRead, Entry, FieldText, FieldOf, SpelledEvent, SpelledGuard;
    var m := ReadGuards(s, e.guards);
  }

  lemma GuardsAreSpelled(e: Event)
    requires SpelledEvent(e)
    ensures forall g :: g in e.guards ==> SpelledGuard(g)
  {
  }

  lemma ReferencesTrack(e: Event, s: Reading)
    requires SpelledEvent(e) && s.guards == []
    ensures var r := ReadLines(s, LineCodec.Split(Block(e, EvidenceRefsKey)));
      r.Some? ==> r.value.guards == TailGuards(e) && r.value.extra == (s.extra || TailExtra(e))
  {
    var refs := e.evidenceRefs;
    assert FieldText(FieldOf(e, EvidenceRefsKey)) == if refs == [] then "[]" else Lines(ReferenceLines(refs));
    assert refs != [] ==> IsReferenceText(refs[0].text) by { if refs != [] { assert refs[0] in refs; } }
    hide LineCodec.Split, Name, Coerce, ReadLines, Entry, Strip, FieldText, FieldOf, SpelledEvent, ReferenceText, IsReferenceText, Lines,
      ReferenceLines, ReadLine;
    if refs == [] {
      EmptyCoerces();
      ReadScalar(s, EvidenceRefsKey, "[]");
      NothingAlone();
    } else {
      ReferencesCoerce(refs);
      ReferenceTextIs(refs);
      SplitNamed(EvidenceRefsKey, Lines(ReferenceLines(refs)));
      var head := Entry(Name(EvidenceRefsKey), ReferenceText(refs)[0]);
      ReadNamed(s, EvidenceRefsKey, ReferenceText(refs)[0]);
      ReadOne(s, head, Tail(e));
      Twin(ReadLine(s, head).value, NOTHING_READ, s.extra, Tail(e));
    }
  }

  /** What the entries from number `i` on do to them. */
  ghost predicate TracksFrom(e: Event, i: nat, s: Reading, r: Reading)
    requires HasApproval(e)
  {
    && r.extra == (s.extra || (i <= 9 && TailExtra(e)))
    && if i <= 12
       then exists m :: GuardsRead(e.guards, m) && r.guards == (if i <= 9 then TailGuards(e) else s.guards) + [m]
       else r.guards == s.guards
  }

  lemma TracksOn(e: Event, i: nat, s: Reading, t: Reading, r: Reading)
    requires i < |KEYS| && HasApproval(e) && Tracks(e, KEYS[i], s, t) && TracksFrom(e, i + 1, t, r)
    ensures TracksFrom(e, i, s, r)
  {
    hide KEYS, GuardsRead, HasApproval, TailGuards, TailExtra, Rank;
    KeyAt(i, KEYS[i]);
    GuardRank(KEYS[i]);
    ReferencesRank(KEYS[i]);
  }

  lemma SkipTracks(e: Event, i: nat, s: Reading, r: Reading)
    requires i < |KEYS| && HasApproval(e) && FieldOf(e, KEYS[i]).Absent? && TracksFrom(e, i + 1, s, r)
    ensures TracksFrom(e, i, s, r)
  {
    GuardsPresent(e, KEYS[i]);
    NoOwnReferences(e);
    hide KEYS, GuardsRead, HasApproval, TailGuards, TailExtra, Rank, FieldOf;
    KeyAt(i, KEYS[i]);
    GuardRank(KEYS[i]);
    ReferencesRank(KEYS[i]);
  }

  lemma {:induction false} TextTracks(e: Event, i: nat, s: Reading)
    requires i <= |KEYS| && SpelledEvent(e) && HasApproval(e) && (i <= 9 ==> s.guards == [])
    ensures var r := ReadLines(s, Flat(Blocks(e, KEYS[i..]))); r.Some? ==> TracksFrom(e, i, s, r.value)
    decreases |KEYS| - i
  {
    hide LineCodec.Split, Block, FieldOf, SpelledEvent, HasApproval, ReadLine, Blocks, Flat, ReadLines, Rank, KEYS, TracksFrom, Tracks;
    if i == |KEYS| {
      EndTracks(e, s);
    } else {
      BlocksAt(e, i);
      var rest := Flat(Blocks(e, KEYS[i + 1..]));
      if FieldOf(e, KEYS[i]).Absent? {
        assert [] + rest == rest;
        TextTracks(e, i + 1, s);
        if ReadLines(s, rest).Some? { SkipTracks(e, i, s, ReadLines(s, rest).value); }
      } else {
        TakeTracks(e, i, s, rest);
      }
    }
  }

  lemma EndTracks(e: Event, s: Reading)
    requires HasApproval(e)
    ensures ReadLines(s, Flat(Blocks(e, KEYS[|KEYS|..]))) == Some(s) && TracksFrom(e, |KEYS|, s, s)
  {
    assert KEYS[|KEYS|..] == [] && |KEYS| == 22;
    hide KEYS, FieldOf, GuardsRead, HasApproval, TailExtra;
  }

  lemma TakeTracks(e: Event, i: nat, s: Reading, rest: seq<string>)
    requires i < |KEYS| && SpelledEvent(e) && HasApproval(e) && (i <= 9 ==> s.guards == []) && !FieldOf(e, KEYS[i]).Absent?
    requires rest == Flat(Blocks(e, KEYS[i + 1..]))
    ensures var r := ReadLines(s, LineCodec.Split(Block(e, KEYS[i])) + rest); r.Some? ==> TracksFrom(e, i, s, r.value)
    decreases |KEYS| - i, 0
  {
    hide LineCodec.Split, Block, FieldOf, SpelledEvent, HasApproval, ReadLine, Blocks, Flat, ReadLines, Rank, KEYS, TracksFrom;
    var block := LineCodec.Split(Block(e, KEYS[i]));
    KeyAt(i, KEYS[i]);
    ReferencesRank(KEYS[i]);
    GuardRank(KEYS[i]);
    BlockTracks(e, KEYS[i], s);
    ReadConcat(s, block, rest);
    if ReadLines(s, block).Some? {
      var t := ReadLines(s, block).value;
      TextTracks(e, i + 1, t);
      if ReadLines(t, rest).Some? { TracksOn(e, i, s, t, ReadLines(t, rest).value); }
    }
  }

  // ---- The whole text -----------------------------------------------------------------------------------------------

  /** The entries as the text says them. */
  function SaidTop(e: Event): map<Key, Value> { map k | k in KEYS && Said(e, k).Some? :: Said(e, k).value }

  /** Exactly what is read of the text of a gated event. */
  lemma ReadWhole(e: Event) returns (m: GuardMap)
    requires SpelledEvent(e) && HasApproval(e)
    ensures Parse(EventText(e)).Some? <==> Converts(e) && Alone(Tail(e)).Some?
    ensures Parse(EventText(e)).Some? ==>
              && GuardsRead(e.guards, m)
              && Parse(EventText(e)).value == Reading(SaidTop(e), TailExtra(e), TailGuards(e) + [m])
  {
    hide LineCodec.Split, LineCodec.Join, Blocks, Flat, FieldOf, SpelledEvent, ReadLine, ReadLines, KEYS, Converts, Said, Tail,
      Breaks, Rank, GuardsRead, TailGuards, TailExtra;
    ReadSays(e, TaskIdKey);
    BreaksNowhere(e);
    SplitBlocks(Blocks(e, KEYS));
    assert KEYS[0..] == KEYS;
    TextTracks(e, 0, NOTHING_READ);
    var lines := Flat(Blocks(e, KEYS));
    ReadConcat(NOTHING_READ, lines, [""]);
    if ReadLines(NOTHING_READ, lines).Some? {
      var r := ReadLines(NOTHING_READ, lines).value;
      BlankLine(r);
      m :| GuardsRead(e.guards, m) && r.guards == TailGuards(e) + [m];
      TopIsSaid(e, r.top);
    } else {
      m := NO_GUARD;
    }
  }

  lemma TopIsSaid(e: Event, top: map<Key, Value>)
    requires SpelledEvent(e) && Parse(EventText(e)).Some? && Parse(EventText(e)).value.top == top
    ensures top == SaidTop(e)
  {
    hide SpelledEvent, Said, Parse, KEYS, EventText;
    forall k ensures Lookup(top, k) == Said(e, k) && k in KEYS {
      ReadSays(e, k);
      AllKeys(k);
    }
    hide Lookup;
    assert forall k :: k in top <==> k in SaidTop(e) by { LookupIn(top); }
    LookupIn(top);
  }

  lemma LookupIn(m: map<Key, Value>)
    ensures forall k :: (k in m <==> Lookup(m, k).Some?) && (k in m ==> m[k] == Lookup(m, k).value)
  {
  }

  // ---- The condition ------------------------------------------------------------------------------------------------

  predicate TopHolds(top: map<Key, Value>) { SchemaHolds(Reading(top, false, [])) }

  /** The lines of the references convert, have no unknown keys, and open only complete guards of other names. */
  predicate TailFits(e: Event) {
    && Alone(Tail(e)).Some? && !TailExtra(e)
    && forall g :: g in TailGuards(e) ==> GuardComplete(g) && g.name != Some(Words("approval_gate"))
  }

  /** The event's only guard is the approval's, with an id and a path that need no quotes; texts and numbers convert; the
      lines of the references fit, and what the text says for each key is what the schema wants. */
  predicate Recoverable(e: Event) {
    && Lone(e) && Converts(e) && TailFits(e) && TopHolds(SaidTop(e))
    && Bare(e.guards[0].approvalId.text) && Bare(PathText(e.guards[0].evidence))
  }

  lemma SchemaParts(r: Reading)
    ensures SchemaHolds(r) <==> TopHolds(r.top) && !r.extra && forall g :: g in r.guards ==> GuardComplete(g)
  {
    hide IsCommon, IsKnown, IsDigestText, IsFailureText, IsEventIdText, IsSafeText, KindText, SCHEMA, GuardComplete;
  }

  lemma {:induction false} MapsConcat(a: seq<GuardMap>, m: GuardMap)
    ensures ApprovalMaps(a + [m]) == ApprovalMaps(a) + ApprovalMaps([m])
  {
    if a == [] {
      assert a + [m] == [m];
    } else {
      assert (a + [m])[0] == a[0] && (a + [m])[1..] == a[1..] + [m];
      MapsConcat(a[1..], m);
    }
  }

  lemma {:induction false} NoMaps(gs: seq<GuardMap>)
    ensures ApprovalMaps(gs) == [] <==> forall g :: g in gs ==> g.name != Some(Words("approval_gate"))
  {
    if gs != [] { NoMaps(gs[1..]); }
  }

  /** After other guards, exactly those of another name are passed over. */
  lemma ExtractLast(front: seq<GuardMap>, m: GuardMap, scope: string)
    requires m.name == Some(Words("approval_gate"))
    ensures Extract(front + [m], scope) ==
      if forall g :: g in front ==> g.name != Some(Words("approval_gate")) then Extract([m], scope) else Unreadable
  {
    MapsConcat(front, m);
    NoMaps(front);
    assert ApprovalMaps([m]) == [m] by { assert [m][1..] == []; }
    hide ApprovalMaps;
    var found := ApprovalMaps(front);
    if found != [] { assert |found + [m]| != 1; }
    hide LastInput, IsTimeText, IsSafeText;
  }

  lemma NameRead(e: Event, m: GuardMap)
    requires HasApproval(e) && GuardsRead(e.guards, m)
    ensures m.name == Some(Words("approval_gate"))
    ensures |e.guards| == 1 <==> Lone(e)
  {
  }

  lemma CompleteParts(front: seq<GuardMap>, m: GuardMap)
    ensures (forall g :: g in front + [m] ==> GuardComplete(g)) <==> (forall g :: g in front ==> GuardComplete(g)) && GuardComplete(m)
  {
    assert m in front + [m];
  }

  /** The approval guard comes back from the text exactly if the text is recoverable. */
  lemma RecoverableExactly(e: Event)
    requires SpelledEvent(e) && HasApproval(e)
    ensures RecoverGuard(EventText(e), e.guards[|e.guards| - 1].scope) == ApprovalTexts(e) <==> Recoverable(e)
  {
    hide SpelledEvent, EventText, Parse, SchemaHolds, Extract, Converts, Bare, GuardsRead, PathText, TimeText, ScopeText, SaidTop,
      TailGuards, TailExtra, Tail, TopHolds, Lone, GuardComplete, GuardTexts;
    var m := ReadWhole(e);
    ApprovalTextsAre(e);
    if Parse(EventText(e)).Some? {
      var r := Parse(EventText(e)).value;
      SchemaParts(r);
      CompleteParts(TailGuards(e), m);
      NameRead(e, m);
      ExtractLast(TailGuards(e), m, ScopeText(e.guards[|e.guards| - 1].scope));
      if |e.guards| == 1 {
        LoneExtracts(e, m);
      } else {
        SeveralRead(e, m);
      }
    }
  }

  lemma SeveralRead(e: Event, m: GuardMap)
    requires HasApproval(e) && |e.guards| > 1 && GuardsRead(e.guards, m)
    ensures !Extract([m], ScopeText(e.guards[|e.guards| - 1].scope)).Recovered?
  {
    hide Extract, TimeText, ScopeText;
    var g := e.guards[|e.guards| - 1];
    ExtractSeveral(m, TimeText(g.checkedAt), ScopeText(g.scope));
  }
}
