/** A silenced decision stays silent, and keeps what it learned. */
module Suppression {
  import opened Options
  import opened Text
  import opened Investigation
  import opened Fold
  import opened FoldSpec
  import opened FoldOrder
  import opened Splice
  import opened Refold
  import opened Decisions
  import opened Persistence

  /** Nothing to say: no message, follow-ups, visuals, offers, titles or reaction. */
  predicate Silent(d: Decision) {
    && d.action == "ignore" && d.reaction == "" && d.title == ""
    && NoReply(d.result) && d.result.reply.assessment.None?
  }

  /** Marshal, store, load and decode again, n times over. */
  function Cycles(rules: Rules, d: Decision, n: nat): Option<Decision> {
    if n == 0 then Some(d)
    else
      match Cycles(rules, d, n - 1)
      case None => None
      case Some(x) => Decoded(rules, Reloaded(x))
  }

  /** A suppressed stream is read in one of the two lanes that say nothing. */
  lemma SuppressedLanes(d: Decision)
    requires d.operations != [] && !Blank(d.suppressed)
    ensures ReadOperations(d) == if d.action == "ignore" && Waits(d.operations) then SilentWait(d) else Suppressed(d)
    ensures ReadOperations(d).Some? ==>
              var x := ReadOperations(d).value;
              (x.action == "ignore" && NoReply(x.result) && x.result.reply.assessment.None?
               && x.suppressed == d.suppressed)
  {
    hide Folded, CanonicalAll, Waits, AllTaken, HasWait, WaitStream, Blank;
  }

  /** Whatever the stream, a suppressed decision that decodes says nothing. */
  lemma SuppressedDecodesSilent(rules: Rules, d: Decision)
    requires d.operations != [] && !Blank(d.suppressed)
    ensures match Decoded(rules, d)
            case None => true
            case Some(x) => Silent(x) && x.suppressed == d.suppressed && x.pullRequest == ""
  {
    SuppressedLanes(d);
    hide ReadOperations, CheckedUpdates, NoReply, Blank;
  }

  lemma SilentAgain(rules: Rules, d: Decision)
    requires Silent(d) && !Blank(d.suppressed)
    ensures match Decoded(rules, Reloaded(d)) case None => true case Some(x) => Silent(x) && x.suppressed == d.suppressed
  {
    if d.operations != [] {
      SuppressedDecodesSilent(rules, Reloaded(d));
    }
    hide CheckedUpdates, Blank, Erased, Suppressed, SilentWait, SilentMemory, Replied;
  }

  /** However often the decision goes through the database, the host's silence holds. */
  lemma {:induction false} SuppressionIsPermanent(rules: Rules, d: Decision, reason: string, n: nat)
    ensures match Cycles(rules, SuppressedBy(d, reason), n)
            case None => true
            case Some(x) => Silent(x) && !Blank(x.suppressed)
  {
    hide Decoded, Reloaded, SuppressedBy, Silent, Blank;
    if n == 0 {
      SuppressedIsSilent(d, reason);
    } else {
      SuppressionIsPermanent(rules, d, reason, n - 1);
      var x := Cycles(rules, SuppressedBy(d, reason), n - 1);
      if x.Some? {
        SilentAgain(rules, x.value);
      }
    }
  }

  lemma SuppressedIsSilent(d: Decision, reason: string)
    ensures Silent(SuppressedBy(d, reason)) && !Blank(SuppressedBy(d, reason).suppressed)
  {
    NamedReason(reason);
    hide Trim, Blank;
  }

  lemma NamedReason(reason: string)
    ensures !Blank(if Blank(reason) then "host policy" else Trim(reason))
  {
    hide Trim;
    TrimFixed("host policy");
    TrimTwice(reason);
  }

  /** Nor is what the host gave as its cause lost, nor what the model gave as its
      reason, by any number of cycles. */
  lemma {:induction false} CauseIsPermanent(rules: Rules, d: Decision, cause: string, n: nat)
    ensures match Cycles(rules, SuppressedBy(d, cause), n)
            case None => true
            case Some(x) =>
              && x.suppressed == (if Trim(cause) == "" then "host policy" else Trim(cause))
              && x.reason == Trim(d.reason + "; " + cause) && x.attention == d.attention
  {
    hide Decoded, Reloaded, Trim, Silent;
    if n > 0 {
      CauseIsPermanent(rules, d, cause, n - 1);
      SuppressionIsPermanent(rules, d, cause, n - 1);
      hide SuppressedBy;
      var x := Cycles(rules, SuppressedBy(d, cause), n - 1);
      if x.Some? {
        CauseKept(rules, x.value);
      }
    }
  }

  lemma CauseKept(rules: Rules, d: Decision)
    requires Silent(d) && !Blank(d.suppressed)
    ensures match Decoded(rules, Reloaded(d))
            case None => true
            case Some(x) => x.suppressed == d.suppressed && x.reason == d.reason && x.attention == d.attention
  {
    var back := Reloaded(d);
    if d.operations != [] {
      SuppressedLanes(back);
    }
    hide CheckedUpdates, Blank, Erased, Folded, WaitStream, AllTaken, HasWait, Waits, CanonicalAll;
  }

  // ---- What a silenced decision keeps ----

  /** The scratch lane hears everything the watch lane does but repository contents. */
  lemma QuietHears(ops: seq<Operation>)
    ensures Folded(Quiet, ops, true).Some? == Folded(Watch, ops, true).Some?
    ensures Folded(Watch, ops, true).Some? ==>
              var q, w := Folded(Quiet, ops, true).value, Folded(Watch, ops, true).value;
              (q.result == w.result.(records := w.result.records.(contents := [])) && q.applied == w.applied)
  {
    hide Folded, EachValid, DistinctIds, ReplyOk, RecordsOk, SchedulesOk, Payloads, DeclaredReply,
         DeclaredSchedules, DeclaredWork, AppliedAll, Claimed;
    FoldExactly(Quiet, ops, true);
    FoldExactly(Watch, ops, true);
  }

  lemma WaitsCanonical(ops: seq<Operation>)
    ensures Waits(CanonicalAll(ops)) == Waits(ops)
  {
    hide Trim, FindingKey;
    assert forall i :: 0 <= i < |ops| ==> CanonicalAll(ops)[i].body.Event? == ops[i].body.Event?;
    CompletionCanonical(ops);
    hide OperationCompletion;
    assert HasWait(CanonicalAll(ops)) == HasWait(ops) by {
      forall i | 0 <= i < |ops| ensures ops[i].body.Event? ==> CanonicalAll(ops)[i] == ops[i] {}
      forall i | 0 <= i < |ops| ensures CanonicalAll(ops)[i].body.Event? ==> CanonicalAll(ops)[i] == ops[i] {}
    }
  }

  lemma {:induction false} CompletionCanonical(ops: seq<Operation>)
    ensures OperationCompletion(CanonicalAll(ops)) == OperationCompletion(ops)
    decreases |ops|
  {
    if ops != [] {
      TailCanonical(ops);
      CompletionCanonical(ops[1..]);
      hide Trim, FindingKey, CanonicalAll;
    }
  }

  /** What is left after any number of cycles of a suppressed reply. */
  function Remains(d: Decision, s: State): Decision {
    Decision("ignore", "", "", "", d.attention, d.reason, d.suppressed, CheckedUpdates(d.updates).GetOr([]),
             Unspoken(s.result.records.(contents := []), s.result.reply.memory), CanonicalAll(d.operations), s.applied)
  }

  lemma CycleOnce(rules: Rules, d: Decision)
    requires d.operations != [] && OnWire(d.operations) && d.action == "ignore" && !Blank(d.suppressed)
    requires Folded(Watch, d.operations, true).Some? && !Waits(d.operations)
    requires d.attention.wellFormed && CheckedUpdates(d.updates).Some?
    ensures Decoded(rules, Reloaded(d)) == Some(Remains(d, Folded(Watch, d.operations, true).value))
  {
    hide Folded, CanonicalAll, Waits, CheckedUpdates, OnWire, Blank;
    QuietHears(d.operations);
    WireKept(d.operations, Normalize(false));
    SuppressedLanes(Reloaded(d));
  }

  lemma RemainsRemain(rules: Rules, d: Decision)
    requires d.operations != [] && OnWire(d.operations) && !Blank(d.suppressed)
    requires Folded(Watch, d.operations, true).Some? && !Waits(d.operations)
    requires d.attention.wellFormed && CheckedUpdates(d.updates).Some?
    ensures var left := Remains(d, Folded(Watch, d.operations, true).value);
            Decoded(rules, Reloaded(left)) == Some(left)
  {
    hide Decoded, Reloaded, Folded, Waits, CheckedUpdates, OnWire, Blank, CanonicalAll, Unspoken;
    var left := Remains(d, Folded(Watch, d.operations, true).value);
    FoldedAgain(Watch, d.operations, true);
    WaitsCanonical(d.operations);
    UpdatesTwice(d.updates);
    WireKept(d.operations, Normalize(false));
    CanonicalOfCanonical(d.operations);
    CycleOnce(rules, left);
  }

  lemma CanonicalOfCanonical(ops: seq<Operation>)
    ensures CanonicalAll(CanonicalAll(ops)) == CanonicalAll(ops)
  {
    hide Trim, FindingKey;
  }

  /** Outside the wait lane a suppressed reply keeps, through any number of cycles,
      exactly the evidence, coverage, findings and memory its stream folds to. */
  lemma {:induction false} SuppressionKeepsWhatWasLearned(rules: Rules, d: Decision, reason: string, n: nat)
    requires d.operations != [] && OnWire(d.operations) && !Waits(d.operations) && n > 0
    requires Folded(Watch, d.operations, true).Some?
    requires d.attention.wellFormed && CheckedUpdates(d.updates).Some?
    ensures var s := Folded(Watch, d.operations, true).value;
            match Cycles(rules, SuppressedBy(d, reason), n)
            case None => false
            case Some(x) =>
              && x.result.records.evidence == s.result.records.evidence
              && x.result.records.coverage == s.result.records.coverage
              && x.result.records.findings == s.result.records.findings
              && x.result.reply.memory == s.result.reply.memory
              && x == Remains(SuppressedBy(d, reason), s)
  {
    hide Folded, Waits, CheckedUpdates, OnWire, Decoded, Reloaded, CanonicalAll, Blank;
    var x := SuppressedBy(d, reason);
    NamedReason(reason);
    if n == 1 {
      assert Cycles(rules, x, 0) == Some(x);
      CycleOnce(rules, x);
    } else {
      SuppressionKeepsWhatWasLearned(rules, d, reason, n - 1);
      RemainsRemain(rules, x);
    }
  }

  // ---- The streams the ignore lane refuses ----

  lemma {:induction false} WaitStreamPart(ops: seq<Operation>)
    ensures forall op :: op in WaitStream(ops) ==> op in ops && WaitKeeps(op.body)
    ensures DistinctIds(ops) ==> DistinctIds(WaitStream(ops))
    ensures Ids(WaitStream(ops)) <= Ids(ops)
    ensures |WaitStream(ops)| <= |ops|
    decreases |ops|
  {
    hide Trim, WaitKeeps;
    if ops != [] {
      hide DistinctIds, Ids;
      var front, op := ops[..|ops| - 1], ops[|ops| - 1];
      assert ops == front + [op];
      WaitStreamPart(front);
      IdsSnoc(front, op);
      IdsSnoc(WaitStream(front), op);
      assert WaitStream(front) + [] == WaitStream(front);
    }
  }

  /** Records and events fill no field but the record lists. */
  ghost predicate FillsNone<T>(pick: Operation -> seq<T>) {
    forall op: Operation :: WaitKeeps(op.body) ==> pick(op) == []
  }

  lemma FillsNothing<T>(ops: seq<Operation>, pick: Operation -> seq<T>)
    requires forall i :: 0 <= i < |ops| ==> WaitKeeps(ops[i].body)
    requires FillsNone(pick)
    ensures Payloads(ops, pick) == []
  {
    hide Payloads, WaitKeeps;
    NoPayloads(ops, pick);
  }

  lemma KeptFills()
    ensures FillsNone(CompletionIn) && FillsNone(MemoryIn) && FillsNone(MemoryOfferIn) && FillsNone(PreferenceIn)
    ensures FillsNone(RuleIn) && FillsNone(AlertIn) && FillsNone(ApprovalIn) && FillsNone(GrantIn)
    ensures FillsNone(IncidentIn) && FillsNone(EngineeringIn) && FillsNone(TaskIn) && FillsNone(ScheduleIn)
  {
  }

  lemma KeptSilent(ops: seq<Operation>)
    requires forall i :: 0 <= i < |ops| ==> WaitKeeps(ops[i].body)
    ensures Payloads(ops, CompletionIn) == [] && Payloads(ops, MemoryIn) == []
    ensures Payloads(ops, MemoryOfferIn) == [] && Payloads(ops, PreferenceIn) == []
    ensures Payloads(ops, RuleIn) == [] && Payloads(ops, AlertIn) == []
    ensures Payloads(ops, ApprovalIn) == [] && Payloads(ops, GrantIn) == []
    ensures Payloads(ops, IncidentIn) == [] && Payloads(ops, EngineeringIn) == []
    ensures Payloads(ops, TaskIn) == [] && Payloads(ops, ScheduleIn) == []
  {
    hide Payloads, WaitKeeps, FillsNone;
    KeptFills();
    FillsNothing(ops, CompletionIn);
    FillsNothing(ops, MemoryIn);
    FillsNothing(ops, MemoryOfferIn);
    FillsNothing(ops, PreferenceIn);
    FillsNothing(ops, RuleIn);
    FillsNothing(ops, AlertIn);
    FillsNothing(ops, ApprovalIn);
    FillsNothing(ops, GrantIn);
    FillsNothing(ops, IncidentIn);
    FillsNothing(ops, EngineeringIn);
    FillsNothing(ops, TaskIn);
    FillsNothing(ops, ScheduleIn);
  }

  lemma KeptAcceptable(ops: seq<Operation>)
    requires forall i :: 0 <= i < |ops| ==> WaitKeeps(ops[i].body)
    requires EachValid(ops) && DistinctIds(ops) && RecordsOk(ops)
    ensures Acceptable(Quiet, ops)
  {
    hide Payloads, EachValid, DistinctIds, RecordsOk, CompletionAt;
    KeptSilent(ops);
    NoCompletion(ops);
    NothingAfter(ScheduleIn);
  }

  lemma EachOf(ops: seq<Operation>, part: seq<Operation>)
    requires EachValid(ops) && RecordsOk(ops) && forall op :: op in part ==> op in ops
    ensures EachValid(part) && RecordsOk(part)
  {
    hide Valid, Trim, ValidEvidence;
    forall i | 0 <= i < |part|
      ensures Valid(Operation(Trim(part[i].id), part[i].body))
      ensures part[i].body.RecordEvidence? ==> ValidEvidence(part[i].body.evidence)
    {
      assert part[i] in part;
      var k :| 0 <= k < |ops| && ops[k] == part[i];
    }
  }

  lemma WaitStreamFolds(ops: seq<Operation>)
    requires Folded(Watch, ops, true).Some?
    ensures Folded(Quiet, WaitStream(ops), false).Some?
  {
    hide Folded, EachValid, DistinctIds, ReplyOk, RecordsOk, OffersOk, WorkOk, SchedulesOk, Declared, AppliedAll,
         WaitKeeps, WaitStream, Ids;
    FoldExactly(Watch, ops, true);
    WaitStreamPart(ops);
    var kept := WaitStream(ops);
    EachOf(ops, kept);
    assert forall i :: 0 <= i < |kept| ==> kept[i] in kept;
    KeptAcceptable(kept);
    hide Acceptable;
    FoldExactly(Quiet, kept, false);
  }

  /** A suppressed reply whose stream folds is refused when it is read back exactly
      when it waits on something external, its completion has no verdict but
      in_progress, and some operation of it is not one the silent wait takes. */
  lemma SuppressedReadsBackUnless(d: Decision)
    requires d.operations != [] && d.action == "ignore" && !Blank(d.suppressed)
    requires Folded(Watch, d.operations, true).Some?
    ensures ReadOperations(d).None? <==> Waits(d.operations) && !AllTaken(d.operations)
  {
    hide Folded, AllTaken, HasWait, WaitStream, CanonicalAll, Blank;
    SuppressedLanes(d);
    QuietHears(d.operations);
    WaitStreamFolds(d.operations);
  }

  /** The streams that carry conversation memory beside an in-progress wait: the
      reply they make is accepted, its silenced form cannot be read back. */
  lemma WaitWithMemoryIsRefused(d: Decision, at: nat)
    requires d.operations != [] && d.action == "ignore" && !Blank(d.suppressed)
    requires Folded(Watch, d.operations, true).Some?
    requires HasWait(d.operations) && InProgress(OperationCompletion(d.operations))
    requires at < |d.operations| && d.operations[at].body.UpdateMemory?
    ensures ReadOperations(d).None?
  {
    hide Folded, HasWait, Blank;
    SuppressedReadsBackUnless(d);
    assert !WaitTakes(d.operations[at].body);
  }
}
