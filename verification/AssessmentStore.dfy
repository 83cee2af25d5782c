/** The immutable store of assessment evidence (`difficulty_assessment_store.py`). */
module AssessmentStore {
  import opened Wrappers
  import opened Difficulty
  import opened ScalarCodec
  import opened EvidenceCodec
  import opened EvidenceCanonical
  import Approvals

  datatype StoreError = Input | Security | Conflict | Ancestry

  // ---- Places ------------------------------------------------------------------------------------------------------

  /** Where a `.yaml` file lies below the assessments directory: `{task}/r{revision}/{id}.yaml`, or anywhere else. */
  datatype Place = At(taskId: string, revision: int, assessmentId: string) | Elsewhere(path: string)

  type Files = map<Place, string>

  predicate IsComponentChar(c: char) {
    'A' <= c <= 'Z' || 'a' <= c <= 'z' || '0' <= c <= '9'
  }

  predicate IsComponent(s: string) {
    && s != "" && IsComponentChar(s[0])
    && forall i :: 0 < i < |s| ==> IsComponentChar(s[i]) || s[i] == '.' || s[i] == '_' || s[i] == '-'
  }

  /** Why a component is refused: unsafe characters, something that reads as a path, or a wrong format. */
  function ComponentError(s: string): (r: Option<StoreError>)
    ensures r.None? <==> IsComponent(s)
  {
    if s == "" || '\0' in s || '\r' in s || '\n' in s then Some(Input)
    else if s == "." || s == ".." || '/' in s || '\\' in s then Some(Security)
    else if !IsComponent(s) then Some(Input)
    else None
  }

  function PlaceOf(a: Assessment): Place { At(a.taskId, a.revision, a.assessmentId) }

  predicate Placeable(a: Assessment) { IsComponent(a.taskId) && IsComponent(a.assessmentId) && a.revision >= 1 }

  function IdentityError(a: Assessment): (r: Option<StoreError>)
    ensures r.None? <==> Placeable(a)
  {
    if ComponentError(a.taskId).Some? then ComponentError(a.taskId)
    else if a.revision < 1 then Some(Input)
    else ComponentError(a.assessmentId)
  }

  /** What Git answers: HEAD, the commits there are, and which of them are ancestors of HEAD. */
  datatype History = History(head: string, commits: set<string>, ancestors: set<string>)

  predicate AncestryHolds(git: History, snapshot: string, expectedHead: string) {
    && git.head == expectedHead && IsCommit(snapshot) && snapshot in git.commits
    && (snapshot == expectedHead || snapshot in git.ancestors)
  }

  // ---- Scanning ----------------------------------------------------------------------------------------------------

  /** A stored file as the scan accepts it: it decodes, and its identity is its place. */
  predicate Accepted(policy: Policy, place: Place, data: string) {
    var decoded := Decode(policy, data);
    decoded.Success? && Placeable(decoded.value.assessment) && PlaceOf(decoded.value.assessment) == place
  }

  predicate AllAccepted(policy: Policy, files: Files) {
    forall p :: p in files ==> Accepted(policy, p, files[p])
  }

  /** No assessment id occurs at two places. */
  predicate UniqueIds(files: Files) {
    forall p, q :: p in files && q in files && p.At? && q.At? && p.assessmentId == q.assessmentId ==> p == q
  }

  predicate Sound(policy: Policy, files: Files) { AllAccepted(policy, files) && UniqueIds(files) }

  /** A file of another place or content with the same assessment id. */
  predicate Conflicts(policy: Policy, files: Files, p: Place, place: Place, data: string)
    requires p in files && place.At?
  {
    p.At? && p.assessmentId == place.assessmentId && (p != place || files[p] != data)
  }

  /** The outcome of a write of evidence `e`; the error of a scan that meets several bad files depends on their order. */
  predicate WriteSucceeds(policy: Policy, files: Files, e: Evidence, git: History, expectedHead: string) {
    && Encode(policy, e).Success? && IsCommit(expectedHead) && Placeable(e.assessment)
    && AncestryHolds(git, e.snapshotCommit, expectedHead)
    && AllAccepted(policy, files)
    && forall p :: p in files ==> !Conflicts(policy, files, p, PlaceOf(e.assessment), Encode(policy, e).value)
  }

  /** Why a request is refused before the store is looked at. */
  function RequestError(policy: Policy, e: Evidence, git: History, expectedHead: string): (r: Option<StoreError>)
    ensures r.None? <==> Encode(policy, e).Success? && IsCommit(expectedHead) && Placeable(e.assessment)
                         && AncestryHolds(git, e.snapshotCommit, expectedHead)
  {
    if Encode(policy, e).Failure? then Some(Input)
    else if !IsCommit(expectedHead) then Some(Ancestry)
    else if ComponentError(e.assessment.taskId).Some? then ComponentError(e.assessment.taskId)
    else if ComponentError(e.assessment.assessmentId).Some? then ComponentError(e.assessment.assessmentId)
    else if e.assessment.revision < 1 then Some(Input)
    else if !AncestryHolds(git, e.snapshotCommit, expectedHead) then Some(Ancestry)
    else None
  }

  lemma WrittenIsAccepted(policy: Policy, e: Evidence)
    requires Encode(policy, e).Success? && Placeable(e.assessment)
    ensures Accepted(policy, PlaceOf(e.assessment), Encode(policy, e).value)
    ensures Decode(policy, Encode(policy, e).value) == Success(e)
  {
    hide Encode, Decode;
    DecodeInvertsEncode(policy, Encode(policy, e).value, e);
  }

  lemma WriteKeepsSound(policy: Policy, files: Files, e: Evidence, git: History, expectedHead: string)
    requires Sound(policy, files) && WriteSucceeds(policy, files, e, git, expectedHead)
    ensures Sound(policy, files[PlaceOf(e.assessment) := Encode(policy, e).value])
    ensures forall p :: p in files ==> files[PlaceOf(e.assessment) := Encode(policy, e).value][p] == files[p]
  {
    hide Encode, Decode, Accepted;
    WrittenIsAccepted(policy, e);
    var place, data := PlaceOf(e.assessment), Encode(policy, e).value;
    forall p | p in files && p.At? && p.assessmentId == place.assessmentId ensures p == place && files[p] == data {
      assert !Conflicts(policy, files, p, place, data);
    }
  }

  // ---- The store ----------------------------------------------------------------------------------------------------

  datatype Receipt = Receipt(assessmentId: string, place: Place, data: string, replayed: bool)

  class Store {
    const policy: Policy
    var files: Files

    constructor (policy: Policy)
      ensures this.policy == policy && files == map[]
    {
      this.policy := policy;
      files := map[];
    }

    /** `_scan_yaml_files`, whatever the order of the directories. */
    method Scan() returns (refused: Option<StoreError>)
      ensures refused.None? <==> AllAccepted(policy, files)
      ensures refused.Some? ==> refused.value.Input? || refused.value.Security?
    {
      hide Decode, IsComponent;
      var order := Approvals.Listing(files.Keys);
      for i := 0 to |order|
        invariant forall j :: 0 <= j < i ==> order[j] in files && Accepted(policy, order[j], files[order[j]])
      {
        assert order[i] in files;
        var decoded := Decode(policy, files[order[i]]);
        if decoded.Failure? {
          return Some(Input);
        }
        var unplaceable := IdentityError(decoded.value.assessment);
        if unplaceable.Some? {
          return unplaceable;
        }
        if PlaceOf(decoded.value.assessment) != order[i] {
          return Some(Security);
        }
      }
      assert forall p :: p in files ==> p in order;
      return None;
    }

    /** `DifficultyAssessmentStore.write`: succeeds exactly when nothing stands against it, adds exactly the encoding at
        the evidence's own place, and otherwise changes nothing. */
    method Write(e: Evidence, git: History, expectedHead: string) returns (r: Result<Receipt, StoreError>)
      modifies this
      ensures r.Success? <==> WriteSucceeds(policy, old(files), e, git, expectedHead)
      ensures r.Failure? ==> files == old(files)
      ensures RequestError(policy, e, git, expectedHead).Some? ==>
                r == Failure(RequestError(policy, e, git, expectedHead).value)
      ensures RequestError(policy, e, git, expectedHead).None? && r.Failure? ==>
                if AllAccepted(policy, old(files)) then r.error.Conflict? else r.error.Input? || r.error.Security?
      ensures r.Success? ==>
        var data := Encode(policy, e).value;
        && files == old(files)[PlaceOf(e.assessment) := data]
        && r.value == Receipt(e.assessment.assessmentId, PlaceOf(e.assessment), data, PlaceOf(e.assessment) in old(files))
        && (r.value.replayed ==> files == old(files))
    {
      hide Encode, Decode, Accepted, IsComponent, RequestError, Placeable, AncestryHolds;
      var early := RequestError(policy, e, git, expectedHead);
      if early.Some? {
        return Failure(early.value);
      }
      var encoded := Encode(policy, e);
      var place := PlaceOf(e.assessment);
      var refused := Scan();
      if refused.Some? {
        return Failure(refused.value);
      }
      var order := Approvals.Listing(files.Keys);
      for i := 0 to |order|
        invariant forall j :: 0 <= j < i ==> order[j] in files && !Conflicts(policy, files, order[j], place, encoded.value)
      {
        assert order[i] in files;
        if order[i].At? && order[i].assessmentId == e.assessment.assessmentId {
          if order[i] != place || files[order[i]] != encoded.value {
            assert Conflicts(policy, files, order[i], place, encoded.value);
            return Failure(Conflict);
          }
        }
      }
      assert forall p :: p in files ==> p in order;
      if place in files {
        assert !Conflicts(policy, files, place, place, encoded.value);
        return Success(Receipt(e.assessment.assessmentId, place, encoded.value, true));
      }
      files := files[place := encoded.value];
      return Success(Receipt(e.assessment.assessmentId, place, encoded.value, false));
    }

    /** `DifficultyAssessmentStore.read`: returns exactly the evidence of that identity whose encoding is the file. */
    method Read(taskId: string, revision: int, assessmentId: string) returns (r: Result<Evidence, StoreError>)
      ensures forall e :: r == Success(e) <==> Holds(policy, files, taskId, revision, assessmentId, e)
      ensures r.Failure? ==> r == ReadFrom(policy, files, taskId, revision, assessmentId)
    {
      ReadFound(policy, files, taskId, revision, assessmentId);
      hide Decode, Holds, IsComponent;
      if ComponentError(taskId).Some? {
        return Failure(ComponentError(taskId).value);
      }
      if revision < 1 {
        return Failure(Input);
      }
      if ComponentError(assessmentId).Some? {
        return Failure(ComponentError(assessmentId).value);
      }
      var place := At(taskId, revision, assessmentId);
      if place !in files {
        return Failure(Input);
      }
      var decoded := Decode(policy, files[place]);
      if decoded.Failure? {
        return Failure(Input);
      }
      var a := decoded.value.assessment;
      if a.taskId != taskId || a.revision != revision || a.assessmentId != assessmentId {
        return Failure(Security);
      }
      return Success(decoded.value);
    }
  }

  function ReadFrom(policy: Policy, files: Files, taskId: string, revision: int, assessmentId: string)
    : Result<Evidence, StoreError>
  {
    var place := At(taskId, revision, assessmentId);
    if ComponentError(taskId).Some? then Failure(ComponentError(taskId).value)
    else if revision < 1 then Failure(Input)
    else if ComponentError(assessmentId).Some? then Failure(ComponentError(assessmentId).value)
    else if place !in files then Failure(Input)
    else
      match Decode(policy, files[place])
      case Failure(_) => Failure(Input)
      case Success(e) => if PlaceOf(e.assessment) != place then Failure(Security) else Success(e)
  }

  /** The store holds this evidence under its identity: the identity is valid, and the file at its place is the encoding
      of evidence that belongs there. */
  predicate Holds(policy: Policy, files: Files, taskId: string, revision: int, assessmentId: string, e: Evidence) {
    && IsComponent(taskId) && IsComponent(assessmentId) && revision >= 1
    && At(taskId, revision, assessmentId) in files && PlaceOf(e.assessment) == At(taskId, revision, assessmentId)
    && Encode(policy, e) == Success(files[At(taskId, revision, assessmentId)])
  }

  /** What a read finds. */
  lemma ReadMeans(policy: Policy, files: Files, taskId: string, revision: int, assessmentId: string, e: Evidence)
    ensures ReadFrom(policy, files, taskId, revision, assessmentId) == Success(e) <==>
              Holds(policy, files, taskId, revision, assessmentId, e)
  {
    hide Decode, Encode, IsComponent;
    var place := At(taskId, revision, assessmentId);
    if place in files { DecodeInvertsEncode(policy, files[place], e); }
  }

  lemma ReadFound(policy: Policy, files: Files, taskId: string, revision: int, assessmentId: string)
    ensures forall e :: ReadFrom(policy, files, taskId, revision, assessmentId) == Success(e) <==>
                          Holds(policy, files, taskId, revision, assessmentId, e)
  {
    hide ReadFrom, Holds;
    forall e ensures ReadFrom(policy, files, taskId, revision, assessmentId) == Success(e) <==>
                       Holds(policy, files, taskId, revision, assessmentId, e)
    {
      ReadMeans(policy, files, taskId, revision, assessmentId, e);
    }
  }

  // ---- Over runs ----------------------------------------------------------------------------------------------------

  datatype Request = Request(evidence: Evidence, git: History, expectedHead: string)

  function Next(policy: Policy, files: Files, w: Request): Files {
    if WriteSucceeds(policy, files, w.evidence, w.git, w.expectedHead)
    then files[PlaceOf(w.evidence.assessment) := Encode(policy, w.evidence).value] else files
  }

  function Run(policy: Policy, files: Files, ws: seq<Request>): Files
    decreases |ws|
  {
    if ws == [] then files else Run(policy, Next(policy, files, ws[0]), ws[1..])
  }

  /** Stores stay sound, and a file once written never changes. */
  lemma {:induction false} RunKeeps(policy: Policy, files: Files, ws: seq<Request>)
    requires Sound(policy, files)
    ensures Sound(policy, Run(policy, files, ws))
    ensures forall p :: p in files ==> p in Run(policy, files, ws) && Run(policy, files, ws)[p] == files[p]
    decreases |ws|
  {
    hide Sound, WriteSucceeds, Encode;
    if ws != [] {
      var w := ws[0];
      if WriteSucceeds(policy, files, w.evidence, w.git, w.expectedHead) {
        WriteKeepsSound(policy, files, w.evidence, w.git, w.expectedHead);
      }
      RunKeeps(policy, Next(policy, files, w), ws[1..]);
    }
  }

  /** Evidence once written is read back unchanged, after any later writes. */
  lemma ReadAfterWrite(policy: Policy, files: Files, w: Request, ws: seq<Request>)
    requires Sound(policy, files) && WriteSucceeds(policy, files, w.evidence, w.git, w.expectedHead)
    ensures var a := w.evidence.assessment;
      ReadFrom(policy, Run(policy, Next(policy, files, w), ws), a.taskId, a.revision, a.assessmentId) == Success(w.evidence)
  {
    hide Sound, Encode, Decode, Run, Accepted;
    WriteKeepsSound(policy, files, w.evidence, w.git, w.expectedHead);
    WrittenIsAccepted(policy, w.evidence);
    RunKeeps(policy, Next(policy, files, w), ws);
  }
}
