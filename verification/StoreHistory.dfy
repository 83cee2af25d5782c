/** When assessment evidence is written, and where everything in the store comes from (`difficulty_assessment_store.py`). */
module StoreHistory {
  import opened Wrappers
  import opened Difficulty
  import opened EvidenceCodec
  import opened EvidenceCanonical
  import opened AssessmentStore

  /** A letter or digit, then letters, digits, full stops, underscores and hyphens. */
  predicate IsName(s: string) {
    && |s| > 0 && IsLetterOrDigit(s[0])
    && forall i :: 0 <= i < |s| ==> IsLetterOrDigit(s[i]) || s[i] == '.' || s[i] == '_' || s[i] == '-'
  }

  predicate IsLetterOrDigit(c: char) { '0' <= c <= '9' || 'A' <= c <= 'Z' || 'a' <= c <= 'z' }

  /** Forty hexadecimal digits in lower case. */
  predicate IsHash(s: string) {
    |s| == 40 && forall i :: 0 <= i < 40 ==> '0' <= s[i] <= '9' || 'a' <= s[i] <= 'f'
  }

  /** Git is where the caller believes it is, and the evidence was made at that commit or before it. */
  predicate MadeBefore(git: History, snapshot: string, expectedHead: string) {
    && git.head == expectedHead && IsHash(snapshot) && snapshot in git.commits
    && (snapshot == git.head || snapshot in git.ancestors)
  }

  /** The file of an assessment. */
  function FileOf(e: Evidence): Place { At(e.assessment.taskId, e.assessment.revision, e.assessment.assessmentId) }

  /** A file that encodes evidence whose file it is. */
  ghost predicate IsItsFile(policy: Policy, place: Place, data: string) {
    exists e: Evidence :: Encode(policy, e) == Success(data) && FileOf(e) == place
      && IsName(e.assessment.taskId) && IsName(e.assessment.assessmentId)
  }

  ghost predicate Writable(policy: Policy, files: Files, e: Evidence, git: History, expectedHead: string) {
    var a := e.assessment;
    && Encode(policy, e).Success? && IsHash(expectedHead) && IsName(a.taskId) && IsName(a.assessmentId)
    && MadeBefore(git, e.snapshotCommit, expectedHead)
    && (forall p :: p in files ==> IsItsFile(policy, p, files[p]))
    && forall p :: p in files && p.At? && p.assessmentId == a.assessmentId ==>
         p.taskId == a.taskId && p.revision == a.revision && Encode(policy, e) == Success(files[p])
  }

  lemma EncodedRevision(policy: Policy, e: Evidence)
    requires Encode(policy, e).Success?
    ensures e.assessment.revision >= 1
  {
    hide DimensionResultsFrom, CleanString, IsAssessmentId;
  }

  lemma AcceptedExactly(policy: Policy, place: Place, data: string)
    ensures Accepted(policy, place, data) <==> IsItsFile(policy, place, data)
  {
    hide Encode, Decode;
    var decoded := Decode(policy, data);
    if decoded.Success? {
      var e := decoded.value;
      DecodeInvertsEncode(policy, data, e);
      EncodedRevision(policy, e);
      forall f: Evidence | Encode(policy, f) == Success(data) ensures f == e { DecodeInvertsEncode(policy, data, f); }
      assert Accepted(policy, place, data) ==> Encode(policy, e) == Success(data) && FileOf(e) == place;
    } else {
      forall f: Evidence ensures Encode(policy, f) != Success(data) { DecodeInvertsEncode(policy, data, f); }
    }
  }

  lemma AllAcceptedExactly(policy: Policy, files: Files)
    ensures AllAccepted(policy, files) <==> forall p :: p in files ==> IsItsFile(policy, p, files[p])
  {
    hide Accepted, IsItsFile;
    forall p | p in files ensures Accepted(policy, p, files[p]) <==> IsItsFile(policy, p, files[p]) {
      AcceptedExactly(policy, p, files[p]);
    }
  }

  /** No file stands against these contents at this place. */
  ghost predicate Unopposed(policy: Policy, files: Files, e: Evidence, data: string) {
    forall p :: p in files && p.At? && p.assessmentId == e.assessment.assessmentId ==>
      p.taskId == e.assessment.taskId && p.revision == e.assessment.revision && data == files[p]
  }

  lemma UnopposedExactly(policy: Policy, files: Files, e: Evidence, data: string)
    ensures (forall p :: p in files ==> !Conflicts(policy, files, p, FileOf(e), data)) <==> Unopposed(policy, files, e, data)
  {
  }

  lemma ChecksExactly(e: Evidence, git: History, expectedHead: string)
    ensures IsComponent(e.assessment.taskId) <==> IsName(e.assessment.taskId)
    ensures IsComponent(e.assessment.assessmentId) <==> IsName(e.assessment.assessmentId)
    ensures IsCommit(expectedHead) <==> IsHash(expectedHead)
    ensures AncestryHolds(git, e.snapshotCommit, expectedHead) <==> MadeBefore(git, e.snapshotCommit, expectedHead)
  {
  }

  /** Evidence is written exactly if it encodes, Git is where the caller believes it is and the evidence was made at HEAD or
      before it, every file of the store is in order, and no other file has its assessment id. */
  lemma WriteExactly(policy: Policy, files: Files, e: Evidence, git: History, expectedHead: string)
    ensures WriteSucceeds(policy, files, e, git, expectedHead) <==> Writable(policy, files, e, git, expectedHead)
  {
    hide Accepted, IsItsFile, Encode, AllAccepted, Conflicts, IsComponent, IsName, IsHash, IsCommit, AncestryHolds, MadeBefore;
    ChecksExactly(e, git, expectedHead);
    AllAcceptedExactly(policy, files);
    if Encode(policy, e).Success? {
      EncodedRevision(policy, e);
      UnopposedExactly(policy, files, e, Encode(policy, e).value);
    }
  }

  // ---- Runs ---------------------------------------------------------------------------------------------------------

  /** The request asked for this file, and could. */
  ghost predicate Asked(policy: Policy, w: Request, place: Place, data: string) {
    && place == FileOf(w.evidence) && Encode(policy, w.evidence) == Success(data)
    && MadeBefore(w.git, w.evidence.snapshotCommit, w.expectedHead)
  }

  ghost predicate Sourced(policy: Policy, files: Files, ws: seq<Request>) {
    forall p :: p in files ==> exists i :: 0 <= i < |ws| && Asked(policy, ws[i], p, files[p])
  }

  lemma NextSourced(policy: Policy, files: Files, past: seq<Request>, w: Request)
    requires Sourced(policy, files, past)
    ensures Sourced(policy, Next(policy, files, w), past + [w])
  {
    hide Encode, Asked;
    var all := past + [w];
    var files' := Next(policy, files, w);
    forall p | p in files' ensures exists i :: 0 <= i < |all| && Asked(policy, all[i], p, files'[p]) {
      if p in files && files'[p] == files[p] {
        var i :| 0 <= i < |past| && Asked(policy, past[i], p, files[p]);
        assert all[i] == past[i];
      } else {
        WrittenWasAsked(policy, files, w);
        assert all[|past|] == w;
      }
    }
  }

  lemma WrittenWasAsked(policy: Policy, files: Files, w: Request)
    requires WriteSucceeds(policy, files, w.evidence, w.git, w.expectedHead)
    ensures Asked(policy, w, FileOf(w.evidence), Encode(policy, w.evidence).value)
    ensures PlaceOf(w.evidence.assessment) == FileOf(w.evidence)
  {
    hide Encode, IsItsFile, Conflicts, Accepted;
    WriteExactly(policy, files, w.evidence, w.git, w.expectedHead);
  }

  lemma {:induction false} RunSourced(policy: Policy, files: Files, past: seq<Request>, ws: seq<Request>)
    requires Sourced(policy, files, past)
    ensures Sourced(policy, Run(policy, files, ws), past + ws)
    decreases |ws|
  {
    hide Sourced, Next;
    if ws == [] {
      assert past + ws == past;
    } else {
      NextSourced(policy, files, past, ws[0]);
      RunSourced(policy, Next(policy, files, ws[0]), past + [ws[0]], ws[1..]);
      assert past + [ws[0]] + ws[1..] == past + ws;
    }
  }

  /** Over any run from an empty store every file is the encoding of evidence that a request brought, which was made at the
      HEAD of that request or before it. */
  lemma StoredWasAsked(policy: Policy, ws: seq<Request>)
    ensures Sourced(policy, Run(policy, map[], ws), ws)
  {
    var none: seq<Request> := [];
    RunSourced(policy, map[], none, ws);
    assert none + ws == ws;
  }
}
