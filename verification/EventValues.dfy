/** What an event file says about each key, whatever its references and guards look like: the last entry of a key wins, and
    a line of a reference that reads as an entry is one. */
module EventValues {
  import opened Wrappers
  import opened Texts
  import opened Approvals
  import opened Ledger
  import opened Events
  import opened EventReader
  import opened EventLines
  import opened EventGuards
  import opened EventReading
  import LineCodec

  // ---- Lines read on their own ------------------------------------------------------------------------------------

  function Alone(lines: seq<string>): Option<Reading> { ReadLines(NOTHING_READ, lines) }

  /** What a line adds to the entries does not depend on the lines before it. */
  lemma LineIndependent(s: Reading, line: string)
    ensures var one := ReadLine(NOTHING_READ, line);
      && (ReadLine(s, line).None? <==> one.None?)
      && (one.Some? ==> ReadLine(s, line).value.top == s.top + one.value.top)
  {
    hide Partition, Coerce, Find, IsBlank, IsEntry, IsIndented, ReadGuardLine, SetField;
    var one := ReadLine(NOTHING_READ, line);
    if one.Some? && ReadLine(s, line).Some? {
      assert ReadLine(s, line).value.top == s.top + one.value.top;
    }
  }

  lemma {:induction false} Independent(s: Reading, lines: seq<string>)
    ensures (ReadLines(s, lines).None? <==> Alone(lines).None?)
    ensures Alone(lines).Some? ==> ReadLines(s, lines).value.top == s.top + Alone(lines).value.top
    decreases |lines|
  {
    hide ReadLine;
    if lines != [] {
      LineIndependent(s, lines[0]);
      var one := ReadLine(NOTHING_READ, lines[0]);
      if one.Some? {
        Independent(ReadLine(s, lines[0]).value, lines[1..]);
        Independent(one.value, lines[1..]);
      }
    }
  }

  /** The reading of two blocks of lines, key by key: the second block wins. */
  lemma AloneConcat(a: seq<string>, b: seq<string>, k: Key)
    ensures Alone(a + b).None? <==> Alone(a).None? || Alone(b).None?
    ensures Alone(a + b).Some? ==>
              Lookup(Alone(a + b).value.top, k) == Later(Lookup(Alone(a).value.top, k), Lookup(Alone(b).value.top, k))
  {
    hide ReadLines;
    ReadConcat(NOTHING_READ, a, b);
    if Alone(a).Some? { Independent(Alone(a).value, b); }
  }

  // ---- The entries of an event -------------------------------------------------------------------------------------

  /** The lines of the references below the first, which stand in the file as they are. */
  function Tail(e: Event): seq<string> { if e.evidenceRefs == [] then [] else ReferenceText(e.evidenceRefs)[1..] }

  /** What these lines claim for a key. */
  function Claimed(e: Event, k: Key): Option<Value> {
    if Alone(Tail(e)).Some? then Lookup(Alone(Tail(e)).value.top, k) else None
  }

  /** What the first line of the references reads as. */
  function HeadValue(e: Event): Option<Value> {
    if e.evidenceRefs == [] then Some(Items([])) else Coerce(ReferenceText(e.evidenceRefs)[0])
  }

  /** What the entry of the key itself reads as. */
  function Own(e: Event, k: Key): Option<Value> {
    if k == EvidenceRefsKey then HeadValue(e) else if Present(e, k) then Coerce(FieldText(FieldOf(e, k))) else None
  }

  lemma ScalarAlone(e: Event, key: Key)
    requires SpelledEvent(e) && Present(e, key) && key != EvidenceRefsKey
    ensures Alone(LineCodec.Split(Block(e, key))) ==
      match Own(e, key) case None => None case Some(v) => Some(NOTHING_READ.(top := map[key := v]))
  {
    hide LineCodec.Split, Name, Coerce, ReadLines, Entry, Strip, FieldText, SpelledEvent;
    ScalarFits(e, key);
    ReadScalar(NOTHING_READ, key, FieldText(FieldOf(e, key)));
  }

  lemma ReferencesAlone(e: Event, k: Key)
    requires SpelledEvent(e)
    ensures var r := Alone(LineCodec.Split(Block(e, EvidenceRefsKey)));
      && (r.None? <==> Alone(Tail(e)).None?)
      && (r.Some? ==> Lookup(r.value.top, k) == Adds(e, EvidenceRefsKey, k))
  {
    var refs := e.evidenceRefs;
    assert FieldText(FieldOf(e, EvidenceRefsKey)) == if refs == [] then "[]" else Lines(ReferenceLines(refs));
    assert refs != [] ==> IsReferenceText(refs[0].text) by { if refs != [] { assert refs[0] in refs; } }
    hide LineCodec.Split, Name, Coerce, ReadLines, Entry, Strip, FieldText, FieldOf, SpelledEvent, ReferenceText, IsReferenceText, Lines,
      ReferenceLines, ReadLine;
    if refs == [] {
      EmptyCoerces();
      ReadScalar(NOTHING_READ, EvidenceRefsKey, "[]");
      NothingAlone();
    } else {
      SomeReferencesAlone(e, k);
    }
  }

  lemma NothingAlone()
    ensures Alone([]) == Some(NOTHING_READ)
  {
  }

  lemma SomeReferencesAlone(e: Event, k: Key)
    requires e.evidenceRefs != [] && IsReferenceText(e.evidenceRefs[0].text)
    ensures var r := Alone(LineCodec.Split(Entry(Name(EvidenceRefsKey), Lines(ReferenceLines(e.evidenceRefs)))));
      && (r.None? <==> Alone(Tail(e)).None?)
      && (r.Some? ==> Lookup(r.value.top, k) == Adds(e, EvidenceRefsKey, k))
  {
    hide LineCodec.Split, Name, Coerce, ReadLines, Entry, Strip, ReferenceText, IsReferenceText, Lines, ReferenceLines, ReadLine;
    var refs := e.evidenceRefs;
    ReferenceTextIs(refs);
    var head := ReferenceText(refs)[0];
    ReferencesCoerce(refs);
    SplitNamed(EvidenceRefsKey, Lines(ReferenceLines(refs)));
    ReadNamed(NOTHING_READ, EvidenceRefsKey, head);
    ReadOne(NOTHING_READ, Entry(Name(EvidenceRefsKey), head), Tail(e));
    Independent(ReadLine(NOTHING_READ, Entry(Name(EvidenceRefsKey), head)).value, Tail(e));
  }

  lemma ReferenceTextIs(refs: seq<Text>)
    ensures ReferenceText(refs) == LineCodec.Split(Lines(ReferenceLines(refs)))
  {
  }

  /** The guards say nothing about any key. */
  lemma GuardsAlone(e: Event)
    requires SpelledEvent(e)
    ensures var r := Alone(LineCodec.Split(Block(e, GuardResultsKey))); r.Some? && r.value.top == map[]
  {
    assert FieldOf(e, GuardResultsKey) == Guards(e.guards) && forall g :: g in e.guards ==> SpelledGuard(g);
    hide SpelledEvent, FieldOf, Name, Entry, FieldText, LineCodec.Split, ReadLines;
    if e.guards == [] {
      NoGuardsAlone();
    } else {
      SomeGuardsAlone(e.guards);
    }
  }

  lemma SomeGuardsAlone(gs: seq<Guard>)
    requires gs != [] && forall g :: g in gs ==> SpelledGuard(g)
    ensures var r := Alone(LineCodec.Split(Entry(Name(GuardResultsKey), FieldText(Guards(gs)))));
      r.Some? && r.value.top == map[]
  {
    hide FieldText, Emit, Coerce, IsTimeSpelling, LineCodec.Split, SpelledGuard, ReadLine, ReadLines, GuardLines, Name, GuardLine, Entry, Indented, AllGuardLines;
    var ls, t := AllGuardLines(gs), CheckedOf(gs[0]);
    GuardBlockLines(gs);
    FirstOfAll(gs);
    FirstLine(gs[0]);
    CheckedIsSpelled(gs);
    ReadGuardHeading(NOTHING_READ, t);
    var start := NO_GUARD.(checked := Some(Coerce(Emit(t)).value));
    var s := NOTHING_READ.(guards := NOTHING_READ.guards + [start]);
    ReadOne(NOTHING_READ, Entry(Name(GuardResultsKey), ls[0]), ls[1..]);
    assert GuardBlock(ls[1..]);
    ReadIndented(s, [], start, ls[1..]);
  }

  lemma NoGuardsAlone()
    ensures var r := Alone(LineCodec.Split(Entry(Name(GuardResultsKey), FieldText(Guards([])))));
      r.Some? && r.value.top == map[]
  {
    hide Name, Coerce, Strip, LineCodec.Split, ReadLine, Signature, IsNameText, Stripped;
    var line := Entry(Name(GuardResultsKey), "[]");
    NameShape(GuardResultsKey);
    NameIsEntry(Name(GuardResultsKey));
    SplitNoFeed(line);
    NoGuardsLine();
    ReadOne(NOTHING_READ, line, []);
    assert [line] + [] == [line];
  }

  lemma NoGuardsLine()
    ensures var r := ReadLine(NOTHING_READ, Entry(Name(GuardResultsKey), "[]")); r.Some? && r.value.top == map[]
  {
    hide Name, Find, Partition, Strip, Coerce, IsBlank, IsEntry, SetField;
    NamedIsEntry(GuardResultsKey, "[]");
    FindName(GuardResultsKey);
    EmptyCoerces();
    BracketsHead();
  }

  lemma BracketsHead()
    ensures Partition("[]") == ("[]", "") && Coerce("") == Some(Words(""))
  {
    assert Strip("[]") == "[]" by { EmptyCoerces(); }
    assert "[]"[0] == '[' && "[]"[1] == ']';
    assert ':' !in "[]";
    assert "[]"[..2] == "[]";
  }

  /** What the entry of one key, references included, says about another. */
  function Adds(e: Event, key: Key, k: Key): Option<Value> {
    var own := if key == k then Own(e, k) else None;
    if key == EvidenceRefsKey then Later(own, Claimed(e, k)) else own
  }

  /** One entry, for one key. */
  lemma BlockAlone(e: Event, key: Key, k: Key)
    requires SpelledEvent(e) && !FieldOf(e, key).Absent?
    ensures var r := Alone(LineCodec.Split(Block(e, key)));
      && (r.None? <==> if key == EvidenceRefsKey then Alone(Tail(e)).None? else Breaks(e, key))
      && (r.Some? ==> Lookup(r.value.top, k) == Adds(e, key, k))
  {
    hide SpelledEvent, Alone, Block, LineCodec.Split, FieldOf, Coerce, FieldText, Tail;
    if key == EvidenceRefsKey {
      ReferencesAlone(e, k);
    } else if key == GuardResultsKey {
      GuardsAlone(e);
    } else {
      ScalarAlone(e, key);
    }
  }

  /** What the entries from number `i` on say about a key. */
  function SaidFrom(e: Event, i: nat, k: Key): Option<Value> {
    if Rank(k) > 9 && Rank(k) >= i && Own(e, k).Some? then Own(e, k)
    else if i <= 9 && Claimed(e, k).Some? then Claimed(e, k)
    else if Rank(k) >= i then Own(e, k)
    else None
  }

  predicate FailsFrom(e: Event, i: nat) {
    (exists key :: Rank(key) >= i && Breaks(e, key)) || (i <= 9 && Alone(Tail(e)).None?)
  }

  predicate Says(r: Option<Reading>, e: Event, i: nat, k: Key) {
    (r.None? <==> FailsFrom(e, i)) && (r.Some? ==> Lookup(r.value.top, k) == SaidFrom(e, i, k))
  }

  lemma ReferencesRank(k: Key)
    ensures Rank(k) == 9 <==> k == EvidenceRefsKey
  {
  }

  lemma EndSays(e: Event, k: Key)
    ensures Says(Alone(Flat(Blocks(e, KEYS[|KEYS|..]))), e, |KEYS|, k) && |KEYS| == 22
  {
    assert KEYS[|KEYS|..] == [] && |KEYS| == 22;
    hide KEYS, FieldOf, Own, Rank, Tail;
    forall key ensures Rank(key) < |KEYS| { RankKey(key); }
  }

  lemma SkipSays(e: Event, i: nat, k: Key, r: Option<Reading>)
    requires i < |KEYS| && FieldOf(e, KEYS[i]).Absent? && KEYS[i] != EvidenceRefsKey && Says(r, e, i + 1, k)
    ensures Says(r, e, i, k)
  {
    hide KEYS, FieldOf, Rank, Coerce, FieldText, Alone, Tail, Claimed;
    BreaksFrom(e, i);
    NotBroken(e, KEYS[i]);
    KeyAt(i, k);
    KeyAt(i, KEYS[i]);
    ReferencesRank(KEYS[i]);
  }

  lemma TakeSays(e: Event, i: nat, k: Key, one: Option<Reading>, rest: Option<Reading>, r: Option<Reading>)
    requires i < |KEYS| && Says(rest, e, i + 1, k)
    requires one.None? <==> if KEYS[i] == EvidenceRefsKey then Alone(Tail(e)).None? else Breaks(e, KEYS[i])
    requires one.Some? ==> Lookup(one.value.top, k) == Adds(e, KEYS[i], k)
    requires r.None? <==> one.None? || rest.None?
    requires r.Some? ==> Lookup(r.value.top, k) == Later(Lookup(one.value.top, k), Lookup(rest.value.top, k))
    ensures Says(r, e, i, k)
  {
    hide KEYS, FieldOf, Rank, Own, Alone, Tail, Claimed, Lookup, Breaks;
    BreaksFrom(e, i);
    KeyAt(i, k);
    KeyAt(i, KEYS[i]);
    ReferencesRank(KEYS[i]);
    ReferencesRank(k);
    NoOwnReferences(e);
  }

  lemma NoOwnReferences(e: Event)
    ensures !Breaks(e, EvidenceRefsKey) && !FieldOf(e, EvidenceRefsKey).Absent?
  {
  }

  lemma {:induction false} SaidByText(e: Event, i: nat, k: Key)
    requires i <= |KEYS| && SpelledEvent(e)
    ensures Says(Alone(Flat(Blocks(e, KEYS[i..]))), e, i, k)
    decreases |KEYS| - i
  {
    hide KEYS, FieldOf, Alone, Flat, Blocks, Block, LineCodec.Split, Says, SpelledEvent, Tail, Claimed, Own, Breaks, Lookup;
    if i == |KEYS| {
      EndSays(e, k);
    } else {
      BlocksAt(e, i);
      SaidByText(e, i + 1, k);
      var rest := Flat(Blocks(e, KEYS[i + 1..]));
      if FieldOf(e, KEYS[i]).Absent? {
        assert [] + rest == rest;
        NoOwnReferences(e);
        SkipSays(e, i, k, Alone(rest));
      } else {
        var block := LineCodec.Split(Block(e, KEYS[i]));
        BlockAlone(e, KEYS[i], k);
        AloneConcat(block, rest, k);
        TakeSays(e, i, k, Alone(block), Alone(rest), Alone(block + rest));
      }
    }
  }

  // ---- The whole file ----------------------------------------------------------------------------------------------

  /** What the file says about a key: the references, which come tenth, take precedence over the keys before them, and the
      keys after them over the references. */
  function Said(e: Event, k: Key): Option<Value> {
    if Rank(k) > 9 && Own(e, k).Some? then Own(e, k) else Later(Own(e, k), Claimed(e, k))
  }

  /** Reading an event file fails exactly if one of its own values or a line of a reference does not convert, and otherwise
      gives for each key what the file says. */
  lemma ReadSays(e: Event, k: Key)
    requires SpelledEvent(e)
    ensures Parse(EventText(e)).None? <==> (exists key :: Breaks(e, key)) || Alone(Tail(e)).None?
    ensures Parse(EventText(e)).Some? ==> Lookup(Parse(EventText(e)).value.top, k) == Said(e, k)
  {
    hide KEYS, FieldOf, Flat, Blocks, Block, LineCodec.Split, SpelledEvent, Tail, Claimed, Own, Breaks, LineCodec.Join, ReadLines, Rank;
    SplitBlocks(Blocks(e, KEYS));
    assert KEYS[0..] == KEYS;
    SaidByText(e, 0, k);
    assert forall key :: Rank(key) >= 0;
    var lines := Flat(Blocks(e, KEYS));
    ReadConcat(NOTHING_READ, lines, [""]);
    if ReadLines(NOTHING_READ, lines).Some? {
      BlankLine(ReadLines(NOTHING_READ, lines).value);
    }
  }
}
