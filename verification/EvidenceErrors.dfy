/** The one untyped failure of the decoder that is not about digits (`difficulty_assessment_evidence.py`). */
module EvidenceErrors {
  import opened Wrappers
  import opened Difficulty
  import opened ScalarCodec
  import opened LineCodec
  import opened EvidenceCodec
  import opened EvidenceCanonical
  import opened EvidenceEncoder

  lemma {:induction false} UnescapeTyped(inner: string, field: FieldName)
    ensures Unescape(inner, field) != Failure(IndexPastEnd)
    decreases |inner|
  {
    if inner != "" {
      UnescapeTyped(inner[1..], field);
      if |inner| >= 2 {
        UnescapeTyped(inner[2..], field);
      }
    }
  }

  lemma FieldTyped(slot: Slot, line: string)
    requires slot.Field?
    ensures ParseField(slot, line).Failure? ==> !ParseField(slot, line).error.IndexPastEnd?
  {
    if slot.prefix <= line {
      var token := line[|slot.prefix|..];
      if |token| >= 2 {
        UnescapeTyped(token[1..|token| - 1], slot.name);
      }
    }
    hide Unescape, Escape;
  }

  predicate AllFields(layout: seq<Slot>) { forall slot :: slot in layout ==> slot.Field? }

  lemma {:induction false} FieldsTyped(layout: seq<Slot>, lines: seq<string>)
    requires AllFields(layout)
    ensures ParseLines(layout, lines).Failure? ==> !ParseLines(layout, lines).error.IndexPastEnd?
  {
    if layout != [] {
      assert layout[0] in layout && layout[0].Field?;
    }
    if layout != [] && lines != [] {
      FieldTyped(layout[0], lines[0]);
      FieldsTyped(layout[1..], lines[1..]);
    }
    hide ParseField;
  }

  /** The list header is the only line whose absence is not checked: reading runs past the end exactly when the document
      stops just before it. */
  lemma {:induction false} StopsAtHeader(head: seq<Slot>, header: string, tail: seq<Slot>, lines: seq<string>)
    requires AllFields(head) && AllFields(tail)
    ensures var parsed := ParseLines(head + [Header(header)] + tail, lines);
            parsed.Failure? && parsed.error.IndexPastEnd? <==> ParseLines(head, lines).Success?
  {
    var layout := head + [Header(header)] + tail;
    if head == [] {
      assert layout[1..] == tail;
      if lines != [] {
        FieldsTyped(tail, lines[1..]);
      }
    } else {
      assert layout[0] == head[0] && layout[1..] == head[1..] + [Header(header)] + tail;
      assert head[0] in head && head[0].Field?;
      if lines != [] {
        FieldTyped(head[0], lines[0]);
        StopsAtHeader(head[1..], header, tail, lines[1..]);
      }
    }
    hide ParseField;
  }

  lemma LayoutSplits()
    ensures var dimensions := Repeat(DimensionSlots(), |DIMENSION_ORDER|);
      && Layout() == RootSlots(HEAD_FIELDS) + [ListHeader()] + (dimensions + RootSlots(TAIL_FIELDS))
      && AllFields(RootSlots(HEAD_FIELDS)) && AllFields(dimensions + RootSlots(TAIL_FIELDS))
  {
    RepeatFields(DimensionSlots(), |DIMENSION_ORDER|);
    hide Repeat, DimensionSlots, Key;
  }

  lemma {:induction false} RepeatFields(slots: seq<Slot>, n: nat)
    requires AllFields(slots)
    ensures AllFields(Repeat(slots, n))
  {
    if n > 0 { RepeatFields(slots, n - 1); }
  }

  lemma {:induction false} RawsTyped(values: seq<Scalar>)
    requires |values| % 4 == 0
    ensures RawDimensions(values).Failure? ==> !RawDimensions(values).error.IndexPastEnd?
  {
    if values != [] { RawsTyped(values[4..]); }
  }

  lemma RebuildTyped(policy: Policy, values: seq<Scalar>)
    requires |values| == 40
    ensures Rebuild(policy, values).Failure? ==> !Rebuild(policy, values).error.IndexPastEnd?
  {
    RawsTyped(values[7..35]);
    hide Assess, RawDimensions, SameDimension, RawKeys, IsCommit;
  }

  /** The decoder fails with an untyped index error exactly on the texts that end right before the list header, after
      seven well-formed lines. */
  lemma IndexErrorExactly(policy: Policy, data: string)
    ensures var decoded := Decode(policy, data);
      decoded.Failure? && decoded.error.IndexPastEnd? <==>
        TextLines(data).Success? && ParseLines(RootSlots(HEAD_FIELDS), TextLines(data).value).Success?
  {
    hide Encode, Rebuild, RootSlots, Layout, ListHeader, Repeat, DimensionSlots, ParseLines;
    FinalComparisonIsRedundant(policy, data);
    LayoutSplits();
    TextTyped(data);
    if TextLines(data).Success? {
      var lines := TextLines(data).value;
      var tail := Repeat(DimensionSlots(), |DIMENSION_ORDER|) + RootSlots(TAIL_FIELDS);
      StopsAtHeader(RootSlots(HEAD_FIELDS), Key(DimensionResultList) + ":", tail, lines);
      HeaderIs();
      if ParseLines(Layout(), lines).Success? {
        ParsedCount(lines, ParseLines(Layout(), lines).value);
        RebuildTyped(policy, ParseLines(Layout(), lines).value);
      }
    }
    hide Decode, TextLines, AllFields;
  }

  lemma HeaderIs()
    ensures ListHeader() == Header(Key(DimensionResultList) + ":")
  {
  }

  lemma TextTyped(data: string)
    ensures TextLines(data).Failure? ==> !TextLines(data).error.IndexPastEnd?
  {
  }

  // ---- Texts that fail this way -------------------------------------------------------------------------------------

  lemma HeadStartsPlain(values: seq<Scalar>)
    requires Fits(RootSlots(HEAD_FIELDS), values) && PrintLines(RootSlots(HEAD_FIELDS), values).Success?
    ensures var lines := PrintLines(RootSlots(HEAD_FIELDS), values).value; lines != [] && lines[0] != "" && lines[0][0] == 's'
  {
    assert RootSlots(HEAD_FIELDS)[0] == RootSlot(SchemaVersion);
    assert RootSlot(SchemaVersion).prefix[0] == 's';
  }

  /** The lines before the list header. */
  function HeadOnly(a: Assessment): Printed {
    FitsFields(HEAD_FIELDS, HeadValues(a));
    PrintLines(RootSlots(HEAD_FIELDS), HeadValues(a))
  }

  lemma HeadOnlyParses(a: Assessment)
    requires HeadOnly(a).Success?
    ensures var lines := HeadOnly(a).value;
      && lines != [] && (forall i :: 0 <= i < |lines| ==> lines[i] != "" && AllSafe(lines[i])) && lines[0][0] == 's'
      && ParseLines(RootSlots(HEAD_FIELDS), lines).Success?
  {
    assert |HeadValues(a)| == |HEAD_FIELDS|;
    hide RootSlots, HeadValues, PrintLines, ParseLines, Fits, CleanLayout, AllSafe;
    FitsFields(HEAD_FIELDS, HeadValues(a));
    RootClean(HEAD_FIELDS);
    ParsePrintLines(RootSlots(HEAD_FIELDS), HeadValues(a));
    HeadStartsPlain(HeadValues(a));
    var lines := HeadOnly(a).value;
    forall i | 0 <= i < |lines| ensures lines[i] != "" && AllSafe(lines[i]) { assert lines[i] in lines; }
  }

  /** The head lines of any assessment, standing alone, fail with the untyped error. */
  lemma HeadAloneFails(policy: Policy, a: Assessment)
    requires HeadOnly(a).Success?
    ensures Decode(policy, Join(HeadOnly(a).value)) == Failure(IndexPastEnd)
  {
    hide Decode, Encode, TextLines, RootSlots, HeadOnly, ParseLines, Join, AllSafe;
    HeadOnlyParses(a);
    TextOfLines(HeadOnly(a).value);
    IndexErrorExactly(policy, Join(HeadOnly(a).value));
  }

  function DocumentLines(e: Evidence): Printed
    requires |e.assessment.dimensionResults| == |DIMENSION_ORDER|
  {
    ValuesFit(e);
    PrintLines(Layout(), Values(e))
  }

  lemma EncodedLines(policy: Policy, e: Evidence, data: string)
    requires Encode(policy, e) == Success(data)
    ensures |e.assessment.dimensionResults| == |DIMENSION_ORDER|
    ensures DocumentLines(e).Success? && TextLines(data) == DocumentLines(e)
  {
    hide Layout, Values, TextLines, Assess, Fits, PrintLines, ParseLines, Join, CleanLayout, AllSafe;
    ValuesFit(e);
    LayoutClean();
    ParsePrintLines(Layout(), Values(e));
    FirstLine(Values(e));
    var lines := PrintLines(Layout(), Values(e)).value;
    forall i | 0 <= i < |lines| ensures lines[i] != "" && AllSafe(lines[i]) { assert lines[i] in lines; }
    TextOfLines(lines);
  }

  lemma HeadIsPrefix(e: Evidence)
    requires |e.assessment.dimensionResults| == |DIMENSION_ORDER| && DocumentLines(e).Success?
    ensures HeadOnly(e.assessment).Success? && |HeadOnly(e.assessment).value| == 7
    ensures HeadOnly(e.assessment).value <= DocumentLines(e).value
  {
    hide RootSlots, HeadValues, PrintLines, Fits, Layout, Values, TailLines, DimensionLines;
    WholeDocument(e);
    HeadCount(e.assessment);
  }

  lemma HeadCount(a: Assessment)
    ensures HeadOnly(a).Success? ==> |HeadOnly(a).value| == 7
  {
    FitsFields(HEAD_FIELDS, HeadValues(a));
    RootClean(HEAD_FIELDS);
    assert |RootSlots(HEAD_FIELDS)| == 7;
    hide RootSlots, HeadValues, PrintLines, Fits, CleanLayout;
    if HeadOnly(a).Success? { ParsePrintLines(RootSlots(HEAD_FIELDS), HeadValues(a)); }
  }

  /** So does every encoding cut off after its seventh line. */
  lemma TruncatedFails(policy: Policy, e: Evidence, data: string)
    requires Encode(policy, e) == Success(data)
    ensures TextLines(data).Success? && |TextLines(data).value| >= 7
    ensures Decode(policy, Join(TextLines(data).value[..7])) == Failure(IndexPastEnd)
  {
    hide Decode, Encode, TextLines, HeadOnly, Join, DocumentLines;
    EncodedLines(policy, e, data);
    HeadIsPrefix(e);
    assert TextLines(data).value[..7] == HeadOnly(e.assessment).value;
    HeadAloneFails(policy, e.assessment);
  }
}
