/** Event files read as text, as the recovery of a dispatch reads all of them: line ends are translated first. */
module EventFiles {
  import opened Wrappers
  import opened Texts
  import opened Approvals
  import opened Ledger
  import opened Events
  import opened EventReader
  import opened EventLines
  import opened EventGuards
  import opened EventReading
  import opened EventRecovery
  import opened EventValues
  import LineCodec
  import ScalarCodec

  /** `read_text` and `_parse_custom_yaml_mapping`. */
  function ReadFile(e: Event): Option<Reading> { Parse(Translated(EventText(e))) }

  // ---- Line ends ---------------------------------------------------------------------------------------------------

  lemma {:induction false} TranslatedConcat(a: string, b: string)
    requires a == "" || a[|a| - 1] != '\r'
    ensures Translated(a + b) == Translated(a) + Translated(b)
  {
    if a == "" {
      assert a + b == b;
    } else if IsLineEnd(a) {
      assert (a + b)[2..] == a[2..] + b && IsLineEnd(a + b);
      TranslatedConcat(a[2..], b);
    } else {
      assert (a + b)[1..] == a[1..] + b;
      assert IsLineEnd(a + b) ==> |a| == 1;
      TranslatedConcat(a[1..], b);
    }
  }

  lemma {:induction false} TranslatedSame(s: string)
    requires '\r' !in s
    ensures Translated(s) == s
  {
    if s != "" {
      TranslatedSame(s[1..]);
      assert s == [s[0]] + s[1..];
    }
  }

  lemma {:induction false} TranslatedChars(s: string)
    ensures '\r' !in Translated(s) && ('\r' in s ==> '\n' in Translated(s)) && |Translated(s)| <= |s|
  {
    if s != "" {
      if IsLineEnd(s) {
        TranslatedChars(s[2..]);
        assert Translated(s)[0] == '\n';
      } else {
        TranslatedChars(s[1..]);
        if s[0] == '\r' { assert Translated(s)[0] == '\n'; } else { assert s == [s[0]] + s[1..]; }
      }
    }
  }

  lemma ReplaceCons(s: string, c: char, with: string)
    requires s != ""
    ensures ScalarCodec.ReplaceChar(s, c, with) ==
      (if s[0] == c then with else [s[0]]) + ScalarCodec.ReplaceChar(s[1..], c, with)
  {
  }

  lemma {:induction false} TranslatedReplaced(s: string, c: char, with: string)
    requires c != '\r' && c != '\n' && '\r' !in with && '\n' !in with && with != ""
    ensures Translated(ScalarCodec.ReplaceChar(s, c, with)) == ScalarCodec.ReplaceChar(Translated(s), c, with)
  {
    hide ScalarCodec.ReplaceChar;
    if s == "" {
      ReplaceEmpty(c, with);
    } else if IsLineEnd(s) {
      TranslatedReplaced(s[2..], c, with);
      var rest := ScalarCodec.ReplaceChar(s[2..], c, with);
      ReplaceCons(s, c, with);
      ReplaceCons(s[1..], c, with);
      assert s[1..][1..] == s[2..];
      assert ScalarCodec.ReplaceChar(s, c, with) == "\r" + ("\n" + rest);
      assert ("\r" + ("\n" + rest))[2..] == rest;
      ReplaceCons(Translated(s), c, with);
      assert Translated(s)[1..] == Translated(s[2..]);
    } else {
      TranslatedReplaced(s[1..], c, with);
      ReplaceCons(s, c, with);
      ReplaceCons(Translated(s), c, with);
      assert Translated(s)[1..] == Translated(s[1..]);
      FrontTranslated(s, c, with);
    }
  }

  lemma ReplaceEmpty(c: char, with: string)
    ensures ScalarCodec.ReplaceChar("", c, with) == ""
  {
  }

  lemma FrontTranslated(s: string, c: char, with: string)
    requires s != "" && !IsLineEnd(s) && c != '\r' && c != '\n' && '\r' !in with && '\n' !in with && with != ""
    ensures var rest := ScalarCodec.ReplaceChar(s[1..], c, with);
      Translated((if s[0] == c then with else [s[0]]) + rest) ==
      (if s[0] == c then with else [if s[0] == '\r' then '\n' else s[0]]) + Translated(rest)
  {
    var rest := ScalarCodec.ReplaceChar(s[1..], c, with);
    if s[0] == c {
      TranslatedConcat(with, rest);
      TranslatedSame(with);
    } else {
      assert ([s[0]] + rest)[1..] == rest;
      if s[0] == '\r' && rest != "" {
        assert rest[0] == if s[1] == c then with[0] else s[1] by { ReplaceCons(s[1..], c, with); }
        assert with[0] in with;
      }
      hide ScalarCodec.ReplaceChar;
    }
  }

  lemma TranslatedEscape(s: string)
    ensures Translated(ScalarCodec.Escape(s)) == ScalarCodec.Escape(Translated(s))
  {
    TranslatedReplaced(s, '\\', "\\\\");
    TranslatedReplaced(ScalarCodec.ReplaceChar(s, '\\', "\\\\"), '"', "\\\"");
    hide ScalarCodec.ReplaceChar, Translated;
  }

  lemma FeedQuotes(s: string)
    requires '\r' in s || '\n' in s
    ensures NeedsQuoting(s)
  {
    var i :| 0 <= i < |s| && (s[i] == '\r' || s[i] == '\n');
    assert IsSpecial(s[i]);
    hide IsLeading, IsKeyword, Strip, Lower;
  }

  lemma TranslatedEmit(s: string)
    ensures Translated(Emit(s)) == Emit(Translated(s))
  {
    hide NeedsQuoting, ScalarCodec.Escape, Translated;
    if '\r' !in s {
      EmittedChars(s, '\r');
      TranslatedSame(s);
      TranslatedSame(Emit(s));
    } else {
      TranslatedChars(s);
      FeedQuotes(s);
      FeedQuotes(Translated(s));
      TranslatedEscape(s);
      TranslatedQuoted(ScalarCodec.Escape(s));
    }
  }

  lemma TranslatedQuoted(t: string)
    ensures Translated("\"" + t + "\"") == "\"" + Translated(t) + "\""
  {
    TranslatedConcat("\"", t + "\"");
    TranslatedBeforeQuote(t);
    TranslatedSame("\"");
    assert "\"" + t + "\"" == "\"" + (t + "\"");
    hide Translated;
  }

  lemma {:induction false} TranslatedBeforeQuote(t: string)
    ensures Translated(t + "\"") == Translated(t) + "\""
  {
    if t == "" {
      assert t + "\"" == "\"";
      TranslatedSame("\"");
    } else if IsLineEnd(t) {
      assert (t + "\"")[2..] == t[2..] + "\"" && IsLineEnd(t + "\"");
      TranslatedBeforeQuote(t[2..]);
    } else {
      assert (t + "\"")[1..] == t[1..] + "\"" && !IsLineEnd(t + "\"");
      TranslatedBeforeQuote(t[1..]);
    }
  }

  /** A text without white space around it stays one. */
  lemma TranslatedReference(s: string)
    requires IsReferenceText(s)
    ensures IsReferenceText(Translated(s))
  {
    EndsInSpace();
    hide IsSpace;
    TranslatedEnds(s);
  }

  lemma EndsInSpace()
    ensures IsSpace('\r') && IsSpace('\n')
  {
  }

  lemma {:induction false} TranslatedEnds(s: string)
    requires s != "" && s[|s| - 1] != '\r' && s[|s| - 1] != '\n'
    ensures Translated(s) != "" && Translated(s)[|Translated(s)| - 1] == s[|s| - 1]
    ensures s[0] != '\r' ==> Translated(s)[0] == s[0]
  {
    if |s| > 1 {
      if IsLineEnd(s) { TranslatedEnds(s[2..]); } else { TranslatedEnds(s[1..]); }
    }
  }

  // ---- Files -------------------------------------------------------------------------------------------------------

  function UnifiedRefs(refs: seq<Text>): seq<Text> {
    seq(|refs|, i requires 0 <= i < |refs| => Text(Translated(refs[i].text)))
  }

  /** The event with line feeds for all line ends in its references. */
  function Unified(e: Event): Event { e.(evidenceRefs := UnifiedRefs(e.evidenceRefs)) }

  /** The constructors let a carriage return pass in references only. */
  predicate ReturnsOnlyInReferences(e: Event) {
    forall k :: k != EvidenceRefsKey ==> '\r' !in FieldText(FieldOf(e, k))
  }

  predicate NoReturnAtEnd(s: string) { s == "" || s[|s| - 1] != '\r' }

  lemma {:induction false} TranslatedLines(ls: seq<string>, ts: seq<string>)
    requires |ts| == |ls| && forall i :: 0 <= i < |ls| ==> ts[i] == Translated(ls[i]) && NoReturnAtEnd(ls[i])
    ensures Translated(Lines(ls)) == Lines(ts) && NoReturnAtEnd(Lines(ls))
  {
    hide Translated;
    if ls == [] {
      TranslatedSame("");
    } else if |ls| > 1 {
      TranslatedLines(ls[1..], ts[1..]);
      TranslatedConcat(ls[0], "\n" + Lines(ls[1..]));
      TranslatedConcat("\n", Lines(ls[1..]));
      TranslatedSame("\n");
      assert ls[0] + "\n" + Lines(ls[1..]) == ls[0] + ("\n" + Lines(ls[1..]));
      assert ts[0] + "\n" + Lines(ts[1..]) == ts[0] + ("\n" + Lines(ts[1..]));
      assert Lines(ls)[|Lines(ls)| - 1] == ("\n" + Lines(ls[1..]))[|Lines(ls[1..])|];
    }
  }

  lemma ReferenceLineTranslated(s: string)
    requires IsReferenceText(s)
    ensures Translated("- " + Emit(s)) == "- " + Emit(Translated(s)) && NoReturnAtEnd("- " + Emit(s))
  {
    EmittedEnd(s);
    hide Translated, Emit, Stripped;
    TranslatedConcat("- ", Emit(s));
    TranslatedSame("- ");
    TranslatedEmit(s);
  }

  lemma EmittedEnd(s: string)
    requires IsReferenceText(s)
    ensures Emit(s) != "" && Emit(s)[|Emit(s)| - 1] != '\r'
  {
    EndsInSpace();
    hide IsSpace, NeedsQuoting, ScalarCodec.Escape;
  }

  lemma ReferencesTranslated(refs: seq<Text>)
    requires forall ref :: ref in refs ==> IsReferenceText(ref.text)
    ensures Translated(Lines(ReferenceLines(refs))) == Lines(ReferenceLines(UnifiedRefs(refs)))
    ensures NoReturnAtEnd(Lines(ReferenceLines(refs)))
  {
    var ls, ts := ReferenceLines(refs), ReferenceLines(UnifiedRefs(refs));
    forall i | 0 <= i < |ls| ensures ts[i] == Translated(ls[i]) && NoReturnAtEnd(ls[i]) {
      assert refs[i] in refs;
      ReferenceLineTranslated(refs[i].text);
    }
    hide Emit, Translated, IsReferenceText, ReferenceLines, Lines;
    TranslatedLines(ls, ts);
  }

  lemma FieldTranslated(e: Event, k: Key)
    requires SpelledEvent(e) && ReturnsOnlyInReferences(e)
    ensures Translated(FieldText(FieldOf(e, k))) == FieldText(FieldOf(Unified(e), k))
    ensures NoReturnAtEnd(FieldText(FieldOf(e, k)))
  {
    hide Translated, FieldOf, Lines, ReferenceLines, SpelledEvent, IsReferenceText, Emit;
    if k == EvidenceRefsKey {
      UnifiedReferences(e);
      SpelledReferences(e);
      ReferencesTranslated(e.evidenceRefs);
      TranslatedSame("[]");
    } else {
      OtherFieldsStay(e, k);
      assert '\r' !in FieldText(FieldOf(e, k));
      hide FieldText;
      TranslatedSame(FieldText(FieldOf(e, k)));
    }
  }

  lemma SpelledReferences(e: Event)
    requires SpelledEvent(e)
    ensures forall ref :: ref in e.evidenceRefs ==> IsReferenceText(ref.text)
  {
  }

  lemma OtherFieldsStay(e: Event, k: Key)
    requires k != EvidenceRefsKey
    ensures FieldOf(Unified(e), k) == FieldOf(e, k)
  {
    hide UnifiedRefs, KindText, StateText, TimeText, DigestText, SCHEMA;
  }

  lemma UnifiedReferences(e: Event)
    ensures FieldOf(e, EvidenceRefsKey) == References(e.evidenceRefs)
    ensures FieldOf(Unified(e), EvidenceRefsKey) == References(UnifiedRefs(e.evidenceRefs))
  {
  }

  lemma AbsentStays(e: Event, k: Key)
    ensures FieldOf(Unified(e), k).Absent? <==> FieldOf(e, k).Absent?
  {
    if k == EvidenceRefsKey { UnifiedReferences(e); } else { OtherFieldsStay(e, k); }
    hide FieldOf, UnifiedRefs;
  }

  lemma BlockTranslated(e: Event, k: Key)
    requires SpelledEvent(e) && ReturnsOnlyInReferences(e)
    ensures Translated(Block(e, k) + "\n") == Block(Unified(e), k) + "\n"
  {
    hide Translated, FieldOf, FieldText, SpelledEvent, ReturnsOnlyInReferences, Name;
    FieldTranslated(e, k);
    NameHasNoReturn(k);
    var front, text := Name(k) + ": ", FieldText(FieldOf(e, k));
    TranslatedSame(front);
    TranslatedConcat(front, text + "\n");
    TranslatedConcat(text, "\n");
    TranslatedSame("\n");
    assert Block(e, k) + "\n" == front + (text + "\n");
    assert Block(Unified(e), k) + "\n" == front + (FieldText(FieldOf(Unified(e), k)) + "\n");
  }

  lemma NameHasNoReturn(k: Key)
    ensures '\r' !in Name(k) + ": "
  {
    NameShape(k);
    hide Name, Signature;
  }

  lemma {:induction false} BlocksTranslated(e: Event, keys: seq<Key>)
    requires SpelledEvent(e) && ReturnsOnlyInReferences(e)
    ensures Translated(LineCodec.Join(Blocks(e, keys))) == LineCodec.Join(Blocks(Unified(e), keys))
  {
    hide Translated, FieldOf, SpelledEvent, ReturnsOnlyInReferences, Block, LineCodec.Join, Unified;
    if keys == [] {
      TranslatedSame("");
      EmptyJoin();
    } else {
      var k := keys[0];
      BlocksTranslated(e, keys[1..]);
      AbsentStays(e, k);
      var rest, rest' := Blocks(e, keys[1..]), Blocks(Unified(e), keys[1..]);
      if FieldOf(e, k).Absent? {
        assert [] + rest == rest && [] + rest' == rest';
      } else {
        LineCodec.JoinCons(Block(e, k), rest);
        LineCodec.JoinCons(Block(Unified(e), k), rest');
        BlockTranslated(e, k);
        TranslatedConcat(Block(e, k) + "\n", LineCodec.Join(rest));
      }
    }
  }

  lemma EmptyJoin()
    ensures LineCodec.Join([]) == ""
  {
  }

  /** Reading a file is reading the unified event. */
  lemma FileIsUnified(e: Event)
    requires SpelledEvent(e) && ReturnsOnlyInReferences(e)
    ensures SpelledEvent(Unified(e)) && ReadFile(e) == Parse(EventText(Unified(e)))
  {
    BlocksTranslated(e, KEYS);
    UnifiedIsSpelled(e);
    hide Translated, SpelledEvent, LineCodec.Join, Blocks, KEYS, Parse, Unified;
  }

  lemma UnifiedIsSpelled(e: Event)
    requires SpelledEvent(e)
    ensures SpelledEvent(Unified(e))
  {
    hide Translated, IsReferenceText, SpelledGuard, SpelledExtra, IsEventIdText, IsTaskIdText, IsSafeText;
    forall ref | ref in UnifiedRefs(e.evidenceRefs) ensures IsReferenceText(ref.text) {
      var i :| 0 <= i < |e.evidenceRefs| && ref == Text(Translated(e.evidenceRefs[i].text));
      assert e.evidenceRefs[i] in e.evidenceRefs;
      TranslatedReference(e.evidenceRefs[i].text);
    }
  }
}
