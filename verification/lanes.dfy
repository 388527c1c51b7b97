/** What each lane of ApplyWatchResultOperations makes of a stream, told from the
    operations alone (internal/decision/decision.go). */
module Lanes {
  import opened Options
  import opened Text
  import opened Investigation
  import opened Fold
  import opened FoldSpec
  import opened Splice
  import opened Restoration
  import opened Refold
  import opened Decisions
  import opened Persistence

  /** The wait_external operations of a stream. */
  function WaitIn(op: Operation): seq<Operation> {
    match op.body
    case Event(kind, _) => if kind == WaitExternal then [op] else []
    case _ => []
  }

  /** The six kinds a silent wait may keep, as the fold leaves them. */
  function SilentIn(op: Operation): seq<Operation> {
    match op.body
    case RecordEvidence(_) => [Canonical(op)]
    case RecordCoverage(_) => [op]
    case RecordFinding(_) => [Canonical(op)]
    case Event(kind, _) => if kind == PlanGoal || kind == UpdateGoal || kind == WaitExternal then [op] else []
    case _ => []
  }

  /** A completion that has nothing but progress to report. */
  predicate OnlyProgress(op: Operation) {
    match op.body
    case CompleteEpisode(c) => c.assessment.Some? && c.assessment.value.verdict == "in_progress"
    case _ => false
  }

  lemma SilentOrNot(op: Operation)
    ensures WaitKeeps(op.body) <==> SilentIn(op) != []
    ensures SilentIn(op) == if WaitKeeps(op.body) then [Canonical(op)] else []
    ensures WaitIn(op) != [] <==> op.body.Event? && op.body.kind == WaitExternal
    ensures InSilence(op) <==> WaitTakes(op.body)
  {
    hide Trim, FindingKey;
  }

  predicate InSilence(op: Operation) {
    SilentIn(op) != [] || OnlyProgress(op)
  }

  /** What is picked from the stream a wait keeps can be picked from the whole stream. */
  lemma {:induction false} KeptPayloads<T>(ops: seq<Operation>, pick: Operation -> seq<T>, whole: Operation -> seq<T>)
    requires forall op :: op in ops ==> whole(op) == if WaitKeeps(op.body) then pick(op) else []
    ensures Payloads(WaitStream(ops), pick) == Payloads(ops, whole)
    decreases |ops|
  {
    hide WaitKeeps;
    if ops != [] {
      var front, op := ops[..|ops| - 1], ops[|ops| - 1];
      assert op in ops;
      KeptPayloads(front, pick, whole);
      if WaitKeeps(op.body) {
        Snoc(WaitStream(front), op, pick);
      } else {
        assert WaitStream(ops) == WaitStream(front);
      }
    }
  }

  lemma {:induction false} KeptOperations(ops: seq<Operation>)
    ensures CanonicalAll(WaitStream(ops)) == Payloads(ops, SilentIn)
    ensures HasWait(ops) <==> Payloads(ops, WaitIn) != []
    decreases |ops|
  {
    hide Trim, FindingKey, WaitKeeps, Canonical, SilentIn, WaitIn;
    if ops != [] {
      var front, op := ops[..|ops| - 1], ops[|ops| - 1];
      KeptOperations(front);
      SilentOrNot(op);
      WaitNext(ops, |ops| - 1);
      hide HasWait;
      assert ops[..|ops|] == ops;
      assert CanonicalAll(WaitStream(front) + [op]) == CanonicalAll(WaitStream(front)) + [Canonical(op)];
    }
  }

  lemma KeptRows(ops: seq<Operation>)
    ensures Payloads(WaitStream(ops), EvidenceIn) == Payloads(ops, EvidenceIn)
    ensures Payloads(WaitStream(ops), CoverageIn) == Payloads(ops, CoverageRow)
    ensures Payloads(WaitStream(ops), FindingIn) == Payloads(ops, FindingIn)
  {
    hide Payloads, WaitStream, Trim, FindingKey;
    KeptPayloads(ops, EvidenceIn, EvidenceIn);
    KeptPayloads(ops, CoverageIn, CoverageRow);
    KeptPayloads(ops, FindingIn, FindingIn);
  }

  /** What a decision keeps whatever lane reads it: all that is neither the result, the
      stream nor the action. */
  predicate SameRouting(a: Decision, b: Decision) {
    && a.pullRequest == b.pullRequest && a.attention == b.attention && a.reason == b.reason
    && a.suppressed == b.suppressed && a.updates == b.updates
  }

  /** A silent wait keeps what the turn learned, and nothing else: the payloads of its
      record operations in order, and the operations of the six kinds. It is taken
      exactly when every operation is one of those or a completion in progress, and
      those fold. */
  lemma WaitLane(d: Decision)
    requires d.action == "ignore" && Waits(d.operations)
    ensures var kept := Payloads(d.operations, SilentIn);
            ReadOperations(d).Some?
            <==> (forall i :: 0 <= i < |d.operations| ==> InSilence(d.operations[i]))
                 && |kept| <= MAX_OPERATIONS && Acceptable(Quiet, kept)
    ensures match ReadOperations(d)
            case None => true
            case Some(x) =>
              && x.result == EMPTY.(records := Records(Payloads(d.operations, EvidenceIn), Payloads(d.operations, CoverageRow),
                                                       Payloads(d.operations, FindingIn), []))
              && x.operations == Payloads(d.operations, SilentIn)
              && x.action == "ignore" && x.reaction == d.reaction && x.title == d.title && SameRouting(x, d)
  {
    hide Acceptable, Payloads, Trim, FindingKey, InSilence, WaitTakes, Declared, AppliedAll, Folded;
    var kept := WaitStream(d.operations);
    SomeWait(d.operations);
    KeptOperations(d.operations);
    KeptRows(d.operations);
    FoldExactly(Quiet, kept, false);
    if |kept| <= MAX_OPERATIONS { Reaccepted(kept); }
    QuietRecords(kept);
    forall i | 0 <= i < |d.operations| ensures InSilence(d.operations[i]) <==> WaitTakes(d.operations[i].body) {
      SilentOrNot(d.operations[i]);
    }
  }

  lemma SomeWait(ops: seq<Operation>)
    requires Waits(ops)
    ensures ops != [] && HasWait(ops)
  {
  }

  lemma Reaccepted(ops: seq<Operation>)
    requires |ops| <= MAX_OPERATIONS
    ensures Acceptable(Quiet, CanonicalAll(ops)) == Acceptable(Quiet, ops)
  {
    hide Acceptable, Folded, CanonicalAll, Declared, AppliedAll, Payloads;
    FoldExactly(Quiet, ops, false);
    FoldExactly(Quiet, CanonicalAll(ops), false);
    FoldedAgain(Quiet, ops, false);
  }

  lemma QuietRecords(ops: seq<Operation>)
    ensures Declared(Quiet, ops).records
         == Records(Payloads(ops, EvidenceIn), Payloads(ops, CoverageIn), Payloads(ops, FindingIn), [])
  {
    hide Payloads;
  }

  /** The memory of the one update_memory operation, or else the completion's. */
  function Remembered(ops: seq<Operation>): Memory {
    if Payloads(ops, MemoryIn) != [] then Payloads(ops, MemoryIn)[0]
    else if Payloads(ops, CompletionIn) != [] then Payloads(ops, CompletionIn)[0].memory
    else NO_MEMORY
  }

  /** A suppressed stream leaves what it recorded and remembered, and nothing that
      speaks; it is taken exactly when it folds with its one completion. */
  lemma SuppressedLane(d: Decision)
    requires d.operations != [] && !Blank(d.suppressed) && !(d.action == "ignore" && Waits(d.operations))
    ensures ReadOperations(d).Some?
       <==> |d.operations| <= MAX_OPERATIONS && Acceptable(Quiet, d.operations) && |Payloads(d.operations, CompletionIn)| == 1
    ensures match ReadOperations(d)
            case None => true
            case Some(x) =>
              && x.result == EMPTY.(
                   records := Records(Payloads(d.operations, EvidenceIn), Payloads(d.operations, CoverageIn),
                                      Payloads(d.operations, FindingIn), []),
                   reply := EMPTY.reply.(memory := Remembered(d.operations)))
              && x.operations == CanonicalAll(d.operations) && x.applied == AppliedAll(d.operations)
              && x.action == "ignore" && x.reaction == "" && x.title == "" && SameRouting(x, d)
  {
    hide Acceptable, Payloads, Declared, AppliedAll, Folded, Waits, CanonicalAll, Blank;
    FoldExactly(Quiet, d.operations, true);
    QuietRecords(d.operations);
    if ReadOperations(d).Some? { RememberedIsDeclared(Quiet, d.operations); }
  }

  lemma RememberedIsDeclared(lane: Lane, ops: seq<Operation>)
    requires Acceptable(lane, ops) && |Payloads(ops, CompletionIn)| == 1
    ensures Declared(lane, ops).reply.memory == Remembered(ops)
    ensures Declared(lane, ops).reply.message == Payloads(ops, CompletionIn)[0].message
  {
    hide EachValid, DistinctIds, RecordsOk, OffersOk, WorkOk, SchedulesOk;
    assert Concluded(ops) == Some(Payloads(ops, CompletionIn)[0]);
    hide Payloads, Concluded;
  }

  /** An ignore that updates memory is that one valid operation beside no result and no
      publication update, and changes the memory alone. */
  lemma MemoryLane(d: Decision, at: nat)
    requires d.action == "ignore" && Blank(d.suppressed) && !Waits(d.operations)
    requires at < |d.operations| && d.operations[at].body.UpdateMemory?
    ensures match ReadOperations(d)
            case None => true
            case Some(x) =>
              && |d.operations| == 1 && Valid(d.operations[0]) && d.operations[0].body.UpdateMemory?
              && d.result.records.evidence == [] && d.result.records.coverage == [] && d.result.records.findings == []
              && d.result.reply.assessment.None? && Blank(d.result.reply.message) && d.updates == []
              && x == d.(result := d.result.(reply := d.result.reply.(memory := d.operations[0].body.memory)),
                         applied := d.operations)
    ensures (|d.operations| == 1 && Valid(d.operations[0]) && d.updates == []
             && d.result == EMPTY.(reply := EMPTY.reply.(memory := d.result.reply.memory))) ==> ReadOperations(d).Some?
  {
    hide Valid, Waits, Trim;
    TrimFixed("");
    assert HasMemoryUpdate(d.operations);
  }

  /** Any other stream is a reply: the fold's projection, its message followed by what
      record_feedback still needs asked. */
  lemma ReplyLane(d: Decision)
    requires d.operations != [] && Blank(d.suppressed)
    requires d.action == "ignore" ==> !Waits(d.operations) && Payloads(d.operations, MemoryIn) == []
    ensures ReadOperations(d).Some?
       <==> |d.operations| <= MAX_OPERATIONS && Acceptable(Watch, d.operations) && |Payloads(d.operations, CompletionIn)| == 1
    ensures match ReadOperations(d)
            case None => true
            case Some(x) =>
              var p := Declared(Watch, d.operations);
              && x.result == p.(reply := p.reply.(message := WithFollowup(p.reply.message, AppliedAll(d.operations))))
              && p.reply.message == Payloads(d.operations, CompletionIn)[0].message
              && x.operations == CanonicalAll(d.operations) && x.applied == AppliedAll(d.operations)
              && x.action == "reply" && x.reaction == d.reaction && x.title == d.title && SameRouting(x, d)
  {
    hide Acceptable, Payloads, Declared, AppliedAll, Folded, Waits, CanonicalAll, Blank, WithFollowup;
    FoldExactly(Watch, d.operations, true);
    NoMemory(d.operations);
    if ReadOperations(d).Some? { RememberedIsDeclared(Watch, d.operations); }
  }

  lemma {:induction false} NoMemory(ops: seq<Operation>)
    ensures HasMemoryUpdate(ops) <==> Payloads(ops, MemoryIn) != []
    decreases |ops|
  {
    if ops != [] {
      var front := ops[..|ops| - 1];
      NoMemory(front);
      assert forall i :: 0 <= i < |front| ==> front[i] == ops[i];
    }
  }

  /** The question a feedback operation still needs asked, or none. */
  function QuestionIn(op: Operation): string {
    match op.body
    case RecordFeedback(f) => if f.needsFollowup then Trim(f.question) else ""
    case _ => ""
  }

  /** The message keeps all it said, ahead of the first question it did not ask yet; one
      question is added at most. */
  lemma {:induction false} FollowupExactly(message: string, ops: seq<Operation>, at: nat)
    requires at < |ops| && QuestionIn(ops[at]) != "" && !Contains(message, QuestionIn(ops[at]))
    requires forall i :: 0 <= i < at ==> QuestionIn(ops[i]) == "" || Contains(message, QuestionIn(ops[i]))
    ensures WithFollowup(message, ops)
         == (if Trim(message) == "" then "" else Trim(message) + "\n\n") + QuestionIn(ops[at])
    decreases |ops|
  {
    hide Contains, Trim;
    if at > 0 {
      assert QuestionIn(ops[0]) == "" || Contains(message, QuestionIn(ops[0]));
      forall i | 0 <= i < at - 1
        ensures QuestionIn(ops[1..][i]) == "" || Contains(message, QuestionIn(ops[1..][i]))
      {
        assert ops[1..][i] == ops[i + 1];
      }
      hide QuestionIn;
      FollowupExactly(message, ops[1..], at - 1) by { assert ops[1..][at - 1] == ops[at]; }
      NotAsking(ops[0], message);
    }
  }

  lemma NotAsking(op: Operation, message: string)
    ensures Asks(op, message) <==> QuestionIn(op) != "" && !Contains(message, QuestionIn(op))
  {
    hide Contains, Trim;
  }
}
