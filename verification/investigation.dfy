/** The typed result operations a model returns, and the check each of them must
    pass before the host reads it (internal/investigation/operations.go). */
module Investigation {
  import opened Options
  import opened Text

  const MAX_SUPERSEDED := 10
  const MAX_ID_BYTES := 80

  /** core.Evidence: the fields the validators read, and the rest as one text. */
  datatype Evidence = Evidence(
    id: string, claimId: string, observation: string, dimensions: map<string, string>,
    sourceType: string, sourceName: string, relation: string, healthEffect: string,
    supersedes: seq<string>, rest: string)

  datatype Coverage = Coverage(layer: string, status: string, rest: string)

  datatype Alternative = Alternative(hypothesis: string, discriminatedBy: string, notCheckable: string)

  datatype Finding = Finding(
    id: string, key: string, what: string, status: string, causeEvidence: seq<string>,
    alternatives: seq<Alternative>, reason: string)

  datatype Memory = Memory(
    goal: string, channelPurpose: string, situation: string, activeTopics: seq<string>,
    openLoops: seq<string>, topology: seq<string>, decisions: seq<string>,
    questions: seq<string>, evidenceRefs: seq<string>, knowledge: seq<string>)

  const NO_MEMORY := Memory("", "", "", [], [], [], [], [], [], [])

  datatype Assessment = Assessment(status: string, verdict: string, recheck: Option<string>, rest: string)

  datatype Alert = Alert(verdict: string, rest: string)

  datatype TaskKind = Incident | Engineering | OtherTask(name: string)
  datatype Task = Task(kind: TaskKind, title: string, repository: string, prompt: string)

  datatype Feedback = Feedback(recognized: bool, summary: string, needsFollowup: bool, question: string)

  // Payloads no rule modelled here looks inside.
  datatype Visual = Visual(artifact: string)
  datatype Approval = Approval(run: string)
  datatype MemoryOffer = MemoryOffer(text: string)
  datatype PreferenceOffer = PreferenceOffer(text: string)
  datatype RuleOffer = RuleOffer(text: string)
  datatype ScheduleOffer = ScheduleOffer(text: string)
  datatype GrantOffer = GrantOffer(text: string, complete: bool)
  datatype Contents = Contents(repository: string, contents: string)

  datatype Completion = Completion(
    message: string, followups: seq<string>, visuals: seq<Visual>, coverage: seq<Coverage>,
    memory: Memory, memoryOffer: Option<MemoryOffer>, preferenceOffer: Option<PreferenceOffer>,
    ruleOffer: Option<RuleOffer>, scheduleOffer: Option<ScheduleOffer>, alert: Option<Alert>,
    assessment: Option<Assessment>)

  /** The operations that project from the episode event stream and leave no
      field in the folded result. */
  datatype EventKind =
    ReportProgress | PlanGoal | UpdateGoal | RequestOperatorInput | WaitExternal | RequestRecord
    | OfferRunbookDraft | OfferKbCard | OfferAssignment

  /** An operation's type together with its one typed payload. Malformed stands for
      a payload that is missing, doubled or of another type; propose_action is
      refused whatever it carries. */
  datatype Body =
    | RecordEvidence(evidence: Evidence)
    | RecordCoverage(coverage: Coverage)
    | RecordFinding(finding: Finding)
    | RecordContents(contents: Contents)
    | Event(kind: EventKind, complete: bool)
    | RecordFeedback(feedback: Feedback)
    | RequestApproval(approval: Approval)
    | OfferTask(task: Task)
    | AttachVisual(visual: Visual)
    | UpdateMemory(memory: Memory)
    | OfferMemory(memoryOffer: MemoryOffer)
    | OfferPreference(preferenceOffer: PreferenceOffer)
    | OfferRule(ruleOffer: RuleOffer)
    | OfferGrant(grantOffer: GrantOffer)
    | OfferSchedule(scheduleOffer: ScheduleOffer)
    | RecordAlert(alert: Alert)
    | CompleteEpisode(completion: Completion)
    | Malformed(name: string)

  datatype Operation = Operation(id: string, body: Body)

  predicate NoneBlank(values: seq<string>) {
    forall i :: 0 <= i < |values| ==> !Blank(values[i])
  }

  /** validateEvidenceOperation */
  predicate ValidEvidenceShape(e: Evidence) {
    |e.supersedes| <= MAX_SUPERSEDED && NoneBlank(e.supersedes)
  }

  /** investigation.ValidateEvidence */
  predicate ValidEvidence(e: Evidence) {
    && !Blank(e.claimId) && !Blank(e.sourceType) && !Blank(e.sourceName)
    && (!Blank(e.observation) || |e.dimensions| != 0)
    && Lower(Trim(e.relation)) in {"", "supports", "contradicts"}
    && Lower(Trim(e.healthEffect)) in {"", "none", "risk", "degraded", "unhealthy", "unknown"}
  }

  predicate ValidCoverage(c: Coverage) {
    var status := Lower(Trim(c.status));
    status in {"covered", "healthy", "degraded", "unhealthy", "unknown", "not_applicable"}
  }

  predicate ValidFinding(f: Finding) {
    var status := Lower(Trim(f.status));
    && !Blank(f.what)
    && status in {"unexplained", "explained", "expected", "out_of_scope"}
    && (status == "explained" ==> exists i :: 0 <= i < |f.causeEvidence| && !Blank(f.causeEvidence[i]))
    && (status in {"expected", "out_of_scope"} ==> !Blank(f.reason))
    && (forall i :: 0 <= i < |f.alternatives| ==>
          !Blank(f.alternatives[i].hypothesis)
          && (Blank(f.alternatives[i].discriminatedBy) != Blank(f.alternatives[i].notCheckable)))
  }

  predicate ValidId(id: string) {
    !Blank(id) && ByteLen(id) <= MAX_ID_BYTES
  }

  predicate ValidBody(body: Body) {
    match body
    case RecordEvidence(e) => ValidEvidenceShape(e)
    case RecordCoverage(c) => ValidCoverage(c)
    case RecordFinding(f) => ValidFinding(f)
    case RecordContents(c) => !Blank(c.repository) && !Blank(c.contents) && ByteLen(Trim(c.contents)) <= 240
    case Event(_, complete) => complete
    case RecordFeedback(f) =>
      f.recognized && !Blank(f.summary) && (f.needsFollowup ==> !Blank(f.question))
    case OfferTask(t) => !Blank(t.title) && !t.kind.OtherTask?
    case AttachVisual(v) => !Blank(v.artifact)
    case OfferGrant(g) => g.complete
    case CompleteEpisode(c) => !Blank(c.message)
    case Malformed(_) => false
    case _ => true
  }

  /** ResultOperation.Validate */
  predicate Valid(op: Operation) {
    ValidId(op.id) && ValidBody(op.body)
  }

  const CORRECTED := "-corrected"

  function StripCorrected(id: string): (r: string)
    ensures !HasSuffix(r, CORRECTED)
    ensures |r| <= |id| && r == id[..|r|]
  {
    if HasSuffix(id, CORRECTED) then StripCorrected(id[..|id| - |CORRECTED|]) else id
  }

  /** FindingKeyForOperationID: the host-owned identity of a finding. */
  function FindingKey(id: string): string {
    StripCorrected(Lower(Trim(id)))
  }

  /** Validate's write through the finding pointer and the fold's through the
      evidence pointer: what the payload says once the operation has been read. */
  function ReadBody(id: string, body: Body): Body {
    match body
    case RecordEvidence(e) => RecordEvidence(e.(id := Trim(id)))
    case RecordFinding(f) => RecordFinding(f.(key := FindingKey(id)))
    case _ => body
  }

  /** The fold's own copy of an operation: the identifier trimmed. */
  function Applied(op: Operation): Operation {
    Operation(Trim(op.id), ReadBody(op.id, op.body))
  }

  /** The stream's operation after the fold: payload rewritten, identifier as sent. */
  function Canonical(op: Operation): Operation {
    Operation(op.id, ReadBody(op.id, op.body))
  }

  /** So many copies of the suffix a corrected operation carries. */
  function Corrections(n: nat): string {
    if n == 0 then "" else Corrections(n - 1) + "-corrected"
  }

  lemma {:induction false} StripsEveryCorrection(id: string) returns (n: nat)
    ensures id == StripCorrected(id) + Corrections(n)
    decreases |id|
  {
    assert Corrections(0) == "";
    hide Corrections;
    if HasSuffix(id, CORRECTED) {
      StripsOne(id);
      hide HasSuffix, StripCorrected;
      var rest := id[..|id| - |CORRECTED|];
      n := StripsEveryCorrection(rest);
      OneCorrectionMore(StripCorrected(rest), n);
      n := n + 1;
    } else {
      n := 0;
    }
  }

  lemma StripsOne(id: string)
    requires HasSuffix(id, CORRECTED)
    ensures id == id[..|id| - |CORRECTED|] + CORRECTED
    ensures StripCorrected(id) == StripCorrected(id[..|id| - |CORRECTED|])
  {
  }

  lemma OneCorrectionMore(key: string, n: nat)
    ensures key + Corrections(n) + CORRECTED == key + Corrections(n + 1)
  {
    assert key + Corrections(n) + CORRECTED == key + (Corrections(n) + CORRECTED);
  }

  lemma {:induction false} CorrectionsStripped(key: string, n: nat)
    requires !HasSuffix(key, CORRECTED)
    ensures StripCorrected(key + Corrections(n)) == key
  {
    if n == 0 {
      assert key + Corrections(0) == key;
    } else {
      var rest := key + Corrections(n - 1);
      assert key + Corrections(n) == rest + CORRECTED;
      assert (rest + CORRECTED)[..|rest|] == rest;
      CorrectionsStripped(key, n - 1);
    }
  }

  /** Which identifiers have one key: those that read, trimmed and lower-cased, as that
      key and any number of corrections. No key ends in one. */
  lemma KeyIsWhatWasCorrected(id: string, key: string)
    ensures FindingKey(id) == key <==>
              !HasSuffix(key, "-corrected") && exists n: nat :: Lower(Trim(id)) == key + Corrections(n)
  {
    hide Trim, Lower, StripCorrected, Corrections;
    var stripped := StripsEveryCorrection(Lower(Trim(id)));
    if !HasSuffix(key, CORRECTED) && exists n: nat :: Lower(Trim(id)) == key + Corrections(n) {
      var n: nat :| Lower(Trim(id)) == key + Corrections(n);
      CorrectionsStripped(key, n);
    }
  }

  /** Capitals and outer white space tell no two identifiers apart. */
  lemma OneKeyWhateverTheCase(id: string, other: string)
    requires |Trim(id)| == |Trim(other)|
    requires forall i :: 0 <= i < |Trim(id)| ==> LowerChar(Trim(id)[i]) == LowerChar(Trim(other)[i])
    ensures FindingKey(id) == FindingKey(other)
    ensures forall i :: 0 <= i < |FindingKey(id)| ==> !('A' <= FindingKey(id)[i] <= 'Z')
  {
    hide Trim;
    assert Lower(Trim(id)) == Lower(Trim(other));
    hide StripCorrected;
  }

  lemma TrimmedKey(id: string)
    ensures FindingKey(Trim(id)) == FindingKey(id)
  {
    TrimTwice(id);
  }

  /** A key that is its own canonical form. */
  predicate OwnKey(key: string) {
    key != "" && Tight(key) && FindingKey(key) == key
  }

  /** Deriving a key again changes it only through the white space a stripped
      suffix can leave at its end. */
  lemma KeyOfKey(id: string)
    ensures OwnKey(FindingKey(id)) <==> FindingKey(id) != "" && Tight(FindingKey(id))
    ensures ByteLen(FindingKey(id)) <= ByteLen(Trim(id))
  {
    var lowered, key := Lower(Trim(id)), FindingKey(id);
    ByteLenLower(Trim(id));
    ByteLenPrefix(lowered, |key|);
    NothingToStrip(key);
    hide Trim, ByteLen, StripCorrected;
    if Tight(key) {
      TrimFixed(key);
      LoweredPrefix(Trim(id), |key|);
    }
  }

  lemma LoweredPrefix(s: string, n: nat)
    requires n <= |s|
    ensures Lower(Lower(s)[..n]) == Lower(s)[..n]
  {
  }

  lemma NothingToStrip(s: string)
    requires !HasSuffix(s, CORRECTED)
    ensures StripCorrected(s) == s
  {
  }
}
