/** The encoder as it runs: a growing list of lines (`difficulty_assessment_evidence.py`). */
module EvidenceEncoder {
  import opened Wrappers
  import opened Difficulty
  import opened ScalarCodec
  import opened LineCodec
  import opened EvidenceCodec

  type Printed = Result<seq<string>, EvidenceError>

  /** The lines of two documents, or the first error of either. */
  function Then(a: Printed, b: Printed): Printed {
    match a
    case Failure(e) => Failure(e)
    case Success(x) => match b case Failure(e) => Failure(e) case Success(y) => Success(x + y)
  }

  lemma ThenAssociative(a: Printed, b: Printed, c: Printed)
    ensures Then(Then(a, b), c) == Then(a, Then(b, c))
  {
    if a.Success? && b.Success? && c.Success? {
      assert (a.value + b.value) + c.value == a.value + (b.value + c.value);
    }
  }

  /** Printing goes part by part. */
  lemma {:induction false} PrintConcat(a: seq<Slot>, b: seq<Slot>, u: seq<Scalar>, v: seq<Scalar>)
    requires Fits(a, u) && Fits(b, v)
    ensures Fits(a + b, u + v)
    ensures PrintLines(a + b, u + v) == Then(PrintLines(a, u), PrintLines(b, v))
  {
    FitsConcat(a, b, u, v);
    if a == [] {
      assert a + b == b && u + v == v;
      assert PrintLines(b, v).Success? ==> [] + PrintLines(b, v).value == PrintLines(b, v).value;
    } else {
      assert (a + b)[0] == a[0] && (a + b)[1..] == a[1..] + b;
      if a[0].Header? {
        PrintConcat(a[1..], b, u, v);
        ThenAssociative(Success([a[0].line]), PrintLines(a[1..], u), PrintLines(b, v));
      } else {
        assert (u + v)[0] == u[0] && (u + v)[1..] == u[1..] + v;
        PrintConcat(a[1..], b, u[1..], v);
        var token := PrintScalar(u[0], a[0].name);
        if token.Success? {
          ThenAssociative(Success([a[0].prefix + token.value]), PrintLines(a[1..], u[1..]), PrintLines(b, v));
        }
      }
    }
    hide PrintScalar;
  }

  function HeadLines(a: Assessment): Printed {
    FitsFields(HEAD_FIELDS, HeadValues(a));
    Then(PrintLines(RootSlots(HEAD_FIELDS), HeadValues(a)), Success([ListHeader().line]))
  }

  function Quad(d: DimensionResult): Printed {
    FitsDimension(d);
    PrintLines(DimensionSlots(), DimensionValues([d]))
  }

  function DimensionLines(results: seq<DimensionResult>): Printed {
    if results == [] then Success([]) else Then(Quad(results[0]), DimensionLines(results[1..]))
  }

  function TailLines(e: Evidence): Printed {
    FitsFields(TAIL_FIELDS, TailValues(e));
    PrintLines(RootSlots(TAIL_FIELDS), TailValues(e))
  }

  lemma {:induction false} DimensionsPrint(results: seq<DimensionResult>)
    ensures Fits(Repeat(DimensionSlots(), |results|), DimensionValues(results))
    ensures PrintLines(Repeat(DimensionSlots(), |results|), DimensionValues(results)) == DimensionLines(results)
  {
    FitsDimensions(results);
    if results != [] {
      FitsDimension(results[0]);
      DimensionsPrint(results[1..]);
      assert DimensionValues(results) == DimensionValues([results[0]]) + DimensionValues(results[1..]) by {
        assert [results[0]][1..] == [];
      }
      PrintConcat(DimensionSlots(), Repeat(DimensionSlots(), |results| - 1),
                  DimensionValues([results[0]]), DimensionValues(results[1..]));
    }
    hide PrintLines, DimensionSlots, Fits;
  }

  /** The document is its head, its dimensions and its tail, printed one after the other. */
  lemma WholeDocument(e: Evidence)
    requires |e.assessment.dimensionResults| == |DIMENSION_ORDER|
    ensures Fits(Layout(), Values(e))
    ensures PrintLines(Layout(), Values(e))
      == Then(Then(HeadLines(e.assessment), DimensionLines(e.assessment.dimensionResults)), TailLines(e))
  {
    var a := e.assessment;
    var head, header, dims, tail :=
      RootSlots(HEAD_FIELDS), [ListHeader()], Repeat(DimensionSlots(), |DIMENSION_ORDER|), RootSlots(TAIL_FIELDS);
    ValuesFit(e);
    FitsFields(HEAD_FIELDS, HeadValues(a));
    FitsFields(TAIL_FIELDS, TailValues(e));
    DimensionsPrint(a.dimensionResults);
    HeaderPrints();
    hide RootSlots, DimensionSlots, Repeat, Key, Fits, PrintLines, HeadValues, DimensionValues, TailValues, DimensionLines, ListHeader;
    PrintConcat(head, header, HeadValues(a), []);
    assert HeadValues(a) + [] == HeadValues(a);
    PrintConcat(head + header, dims, HeadValues(a), DimensionValues(a.dimensionResults));
    PrintConcat(head + header + dims, tail, HeadValues(a) + DimensionValues(a.dimensionResults), TailValues(e));
  }

  lemma HeaderPrints()
    ensures Fits([ListHeader()], []) && PrintLines([ListHeader()], []) == Success([ListHeader().line])
  {
    var header := ListHeader();
    hide Key;
    assert [header][1..] == [];
    assert PrintLines([], []) == Success([]);
    assert [header.line] + [] == [header.line];
    assert PrintLines([header], []) == Success([header.line] + []);
  }

  /** `encode_difficulty_assessment_evidence`: the head, then four more lines for each dimension, then the tail. */
  method EncodeEvidence(policy: Policy, e: Evidence) returns (r: Result<string, EvidenceError>)
    ensures r == Encode(policy, e)
  {
    hide ValidationError, Layout, Values, Fits, PrintLines, HeadLines, Quad, TailLines, Join, Assess;
    var error := ValidationError(policy, e);
    if error.Some? {
      return Failure(error.value);
    }
    var a := e.assessment;
    SevenDimensions(policy, e);
    WholeDocument(e);
    var head := HeadLines(a);
    if head.Failure? {
      return Failure(head.error);
    }
    var lines := head.value;
    for i := 0 to |a.dimensionResults|
      invariant Then(Success(lines), DimensionLines(a.dimensionResults[i..])) == Then(head, DimensionLines(a.dimensionResults))
    {
      assert a.dimensionResults[i..][1..] == a.dimensionResults[i + 1..];
      var quad := Quad(a.dimensionResults[i]);
      if quad.Failure? {
        return Failure(quad.error);
      }
      ThenAssociative(Success(lines), quad, DimensionLines(a.dimensionResults[i + 1..]));
      lines := lines + quad.value;
    }
    assert lines + [] == lines;
    var tail := TailLines(e);
    if tail.Failure? {
      return Failure(tail.error);
    }
    return Success(Join(lines + tail.value));
  }

  lemma SevenDimensions(policy: Policy, e: Evidence)
    requires ValidationError(policy, e).None?
    ensures |e.assessment.dimensionResults| == |DIMENSION_ORDER|
  {
    hide Assess;
  }
}
