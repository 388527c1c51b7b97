/** The corrected round: its stream with the missing records spliced in refolds to
    what the host read, and restoring again changes nothing. */
module Refold {
  import opened Options
  import opened Text
  import opened Investigation
  import opened Fold
  import opened FoldSpec
  import opened FoldOrder
  import opened Carry
  import opened PartialRound
  import opened Splice
  import opened Restoration

  /** The records accepted so far, as the run's context keeps them. */
  datatype Ledger = Ledger(evidence: seq<Evidence>, coverage: seq<Coverage>, findings: seq<Finding>)

  /** A finding's operation id is not part of its JSON: it is lost with the context. */
  function Nameless(f: Finding): Finding {
    f.(id := "")
  }

  function Erased(findings: seq<Finding>): (r: seq<Finding>)
    ensures |r| == |findings|
  {
    seq(|findings|, i requires 0 <= i < |findings| => Nameless(findings[i]))
  }

  /** What every carried row satisfies once the fold has filled the ledger. */
  ghost predicate ProperEvidence(rows: seq<Evidence>) {
    forall e :: e in rows ==> e.id != "" && Tight(e.id) && ValidEvidence(e)
  }

  ghost predicate ProperFindings(rows: seq<Finding>) {
    forall f :: f in rows ==> f.id == "" && OwnKey(f.key) && ByteLen(f.key) <= MAX_ID_BYTES
  }

  ghost predicate Proper(held: Ledger) {
    ProperEvidence(held.evidence) && ProperFindings(held.findings)
  }

  function PutBack(ops: seq<Operation>, held: Ledger): CarriedRecords {
    Restored(ops, held.evidence, held.coverage, held.findings)
  }

  function CanonicalAll(ops: seq<Operation>): (r: seq<Operation>)
    ensures |r| == |ops|
  {
    seq(|ops|, i requires 0 <= i < |ops| => Canonical(ops[i]))
  }

  /** The fold rewrites payloads through shared pointers; folding the rewritten
      stream again writes the same result. */
  lemma RereadStep(lane: Lane, s: State, op: Operation)
    ensures Step(lane, s, Canonical(op)) == Step(lane, s, op)
  {
    ValidReread(op);
    ProjectReread(lane, s.result, s.completed, s.memoryUpdated, op);
    AppliedReread(op);
    hide Valid, Project, Trim, FindingKey, Applied;
  }

  lemma AppliedReread(op: Operation)
    ensures Applied(Canonical(op)) == Applied(op)
  {
    hide Trim, FindingKey;
  }

  lemma ValidReread(op: Operation)
    ensures Valid(Operation(Trim(op.id), ReadBody(op.id, op.body))) == Valid(Operation(Trim(op.id), op.body))
  {
    EvidenceIdUnread(op);
    FindingKeyUnread(op);
    hide ValidEvidenceShape, ValidFinding, ValidCoverage, ByteLen, Trim, FindingKey, ValidEvidence;
  }

  lemma ProjectReread(lane: Lane, p: Projection, completed: bool, memoryUpdated: bool, op: Operation)
    ensures Project(lane, p, completed, memoryUpdated, Operation(Trim(op.id), ReadBody(op.id, op.body)))
         == Project(lane, p, completed, memoryUpdated, Operation(Trim(op.id), op.body))
  {
    EvidenceIdUnread(op);
    TrimmedKey(op.id);
    hide Trim, FindingKey, ValidEvidence;
  }

  lemma EvidenceIdUnread(op: Operation)
    ensures op.body.RecordEvidence? ==>
              var e := op.body.evidence;
              ValidEvidence(e.(id := Trim(op.id))) == ValidEvidence(e)
              && ValidEvidenceShape(e.(id := Trim(op.id))) == ValidEvidenceShape(e)
  {
    hide Trim, Lower;
  }

  lemma FindingKeyUnread(op: Operation)
    ensures op.body.RecordFinding? ==>
              ValidFinding(op.body.finding.(key := FindingKey(op.id))) == ValidFinding(op.body.finding)
  {
    hide Trim, Lower, FindingKey;
  }

  lemma {:induction false} Reread(lane: Lane, s: State, ops: seq<Operation>)
    ensures Run(lane, s, CanonicalAll(ops)) == Run(lane, s, ops)
    decreases |ops|
  {
    if ops != [] {
      hide Step, Canonical;
      RereadStep(lane, s, ops[0]);
      TailCanonical(ops);
      var next := Step(lane, s, ops[0]);
      if next.Some? {
        Reread(lane, next.value, ops[1..]);
      }
    }
  }

  lemma TailCanonical(ops: seq<Operation>)
    requires ops != []
    ensures CanonicalAll(ops)[1..] == CanonicalAll(ops[1..])
    ensures CanonicalAll(ops)[0] == Canonical(ops[0])
  {
    hide Canonical;
  }

  lemma FoldedAgain(lane: Lane, ops: seq<Operation>, requireCompletion: bool)
    ensures Folded(lane, CanonicalAll(ops), requireCompletion) == Folded(lane, ops, requireCompletion)
  {
    Reread(lane, START, ops);
    hide Run;
  }

  /** An operation whose payload already says what reading it would write. */
  ghost predicate Settled(op: Operation) {
    && Tight(op.id)
    && (op.body.RecordEvidence? ==> ValidEvidence(op.body.evidence) && op.body.evidence.id == op.id)
    && (op.body.RecordFinding? ==> op.body.finding.key == FindingKey(op.id))
  }

  ghost predicate AllSettled(ops: seq<Operation>) {
    forall op :: op in ops ==> Settled(op)
  }

  lemma SlugTight(prefix: string, subject: string, index: nat)
    requires prefix != "" && !IsSpace(prefix[0])
    ensures Tight(CarriedOperationId(prefix, subject, index))
  {
    hide Slug, Itoa;
    var id, n := CarriedOperationId(prefix, subject, index), Itoa(index + 1);
    assert id[0] == prefix[0];
    assert id[|id| - 1] == n[|n| - 1];
  }

  lemma PutSettled(s: Restoring, op: Operation)
    requires AllSettled(s.records.operations) && Settled(op)
    ensures AllSettled(Put(s, op).records.operations)
  {
    hide Fits, Settled;
  }

  lemma CoverageOpSettled(row: Coverage, index: nat)
    ensures Settled(CoverageOp(row, index))
  {
    SlugTight("carried-coverage-", row.layer, index);
    hide CarriedOperationId, Tight;
  }

  lemma FindingOpSettled(row: Finding, index: nat, used: set<string>)
    requires row.id == "" && OwnKey(row.key)
    ensures Settled(FindingOp(RestoredFindingId(row, index, used), row))
  {
    SlugTight("carried-finding-", row.what, index);
    hide CarriedOperationId, Tight, FindingKey, ByteLen;
  }

  lemma {:induction false} EvidenceSettled(s: Restoring, rows: seq<Evidence>, sent: set<string>)
    requires AllSettled(s.records.operations)
    requires forall e :: e in rows ==> Tight(e.id) && ValidEvidence(e)
    ensures AllSettled(AllEvidence(s, rows, sent).records.operations)
    decreases |rows|
  {
    if rows != [] {
      var row, front := rows[|rows| - 1], rows[..|rows| - 1];
      EvidenceSettled(s, front, sent);
      assert row in rows;
      PutSettled(AllEvidence(s, front, sent), EvidenceOp(row));
      hide Put, AllSettled, Tight, ValidEvidence;
    }
  }

  lemma {:induction false} CoverageSettled(s: Restoring, rows: seq<Coverage>, sent: set<string>)
    requires AllSettled(s.records.operations)
    ensures AllSettled(AllCoverage(s, rows, sent).records.operations)
    decreases |rows|
  {
    if rows != [] {
      var row, front := rows[|rows| - 1], rows[..|rows| - 1];
      CoverageSettled(s, front, sent);
      CoverageOpSettled(row, |rows| - 1);
      PutSettled(AllCoverage(s, front, sent), CoverageOp(row, |rows| - 1));
      hide Put, AllSettled, CoverageIdentity, Settled, CoverageOp;
    }
  }

  lemma {:induction false} FindingsSettled(s: Restoring, rows: seq<Finding>, sent: seq<Finding>)
    requires AllSettled(s.records.operations)
    requires forall f :: f in rows ==> f.id == "" && OwnKey(f.key)
    ensures AllSettled(AllFindings(s, rows, sent).records.operations)
    decreases |rows|
  {
    if rows != [] {
      var row, front := rows[|rows| - 1], rows[..|rows| - 1];
      FindingsSettled(s, front, sent);
      assert row in rows;
      var held := AllFindings(s, front, sent);
      FindingOpSettled(row, |rows| - 1, held.used);
      PutSettled(held, FindingOp(RestoredFindingId(row, |rows| - 1, held.used), row));
      hide Put, AllSettled, Settled, Answered, FindingOp, RestoredFindingId, OwnKey;
    }
  }

  lemma RestoredSettled(ops: seq<Operation>, held: Ledger)
    requires Proper(held)
    ensures AllSettled(PutBack(ops, held).operations)
  {
    hide Tight, ValidEvidence, OwnKey, AllEvidence, AllCoverage, AllFindings, SentEvidence, SentCoverage,
         SentFindings, UsedIds, Settled;
    var one := AllEvidence(Opening(ops), held.evidence, SentEvidence(ops));
    EvidenceSettled(Opening(ops), held.evidence, SentEvidence(ops));
    CoverageSettled(one, held.coverage, SentCoverage(ops));
    FindingsSettled(AllCoverage(one, held.coverage, SentCoverage(ops)), held.findings, SentFindings(ops));
  }

  lemma RestoredAreRecordOps(ops: seq<Operation>, held: Ledger)
    requires Proper(held)
    ensures RecordOps(PutBack(ops, held).operations) && AllSettled(PutBack(ops, held).operations)
  {
    RestoredSettled(ops, held);
    RestoredSound(ops, held.evidence, held.coverage, held.findings);
    hide Restored, Valid, UsedIds, Filled, Checked, Unshared, AllSettled, RecordOps;
    SettledRecordOps(PutBack(ops, held).operations);
  }

  lemma SettledRecordOps(ops: seq<Operation>)
    requires AllSettled(ops) && Unshared(ops) && Checked(ops)
    ensures RecordOps(ops)
  {
    hide Tight, Valid, ValidEvidence, FindingKey;
    forall i | 0 <= i < |ops| ensures RecordOp(ops[i]) {
      assert ops[i] in ops;
    }
  }

  /** The rows the refold reads out of settled operations are the rows filed. */
  lemma {:induction false} SettledRows(ops: seq<Operation>)
    requires AllSettled(ops) && forall i :: 0 <= i < |ops| ==> RecordBody(ops[i].body)
    ensures Payloads(ops, EvidenceIn) == Payloads(ops, EvidenceRow)
    ensures Payloads(ops, CoverageIn) == Payloads(ops, CoverageRow)
    ensures Erased(Payloads(ops, FindingIn)) == Erased(Payloads(ops, FindingRow))
    decreases |ops|
  {
    if ops != [] {
      var front, op := ops[..|ops| - 1], ops[|ops| - 1];
      SettledRows(front);
      assert op in ops;
      TrimFixed(op.id);
      hide Tight, Trim, FindingKey, ValidEvidence, AllSettled;
      ErasedConcat(Payloads(front, FindingIn), FindingIn(op));
      ErasedConcat(Payloads(front, FindingRow), FindingRow(op));
      OneErased(op);
    }
  }

  lemma OneErased(op: Operation)
    requires Settled(op) && Trim(op.id) == op.id
    ensures Erased(FindingIn(op)) == Erased(FindingRow(op))
  {
    hide Tight, Trim, FindingKey, ValidEvidence;
  }

  lemma ErasedConcat(a: seq<Finding>, b: seq<Finding>)
    ensures Erased(a + b) == Erased(a) + Erased(b)
  {
    hide Nameless;
  }

  /** The decision after ApplyTo: the restored rows ahead of the round's own. */
  function Prepended(r: CarriedRecords, own: Records): Records {
    own.(evidence := r.evidence + own.evidence, coverage := r.coverage + own.coverage,
         findings := r.findings + own.findings)
  }

  /** The same rows, in whatever order, up to the host-only finding ids. */
  ghost predicate SameRows(a: Records, b: Records) {
    && multiset(a.evidence) == multiset(b.evidence)
    && multiset(a.coverage) == multiset(b.coverage)
    && multiset(Erased(a.findings)) == multiset(Erased(b.findings))
    && a.contents == b.contents
  }

  lemma Shuffled<T>(a: seq<T>, b: seq<T>, c: seq<T>)
    ensures multiset(a + b + c) == multiset(b + (a + c))
  {
  }

  lemma SplicedRows(lane: Lane, ops: seq<Operation>, r: CarriedRecords)
    requires RecordOps(r.operations) && AllSettled(r.operations) && Checked(r.operations) && Filled(r)
    ensures SameRows(DeclaredRecords(lane, Inserted(ops, r.operations)), Prepended(r, DeclaredRecords(lane, ops)))
  {
    hide Payloads, RecordOps, AllSettled, Inserted, CompletionAt, Valid;
    var at := CompletionAt(ops);
    SettledRows(r.operations);
    RecordOpsSilent(r.operations);
    InsertedPayloads(ops, r.operations, EvidenceIn);
    InsertedPayloads(ops, r.operations, CoverageIn);
    InsertedPayloads(ops, r.operations, FindingIn);
    InsertedPayloads(ops, r.operations, ContentsIn);
    CutPayloads(ops, at, EvidenceIn);
    CutPayloads(ops, at, CoverageIn);
    CutPayloads(ops, at, FindingIn);
    Shuffled(Payloads(ops[..at], EvidenceIn), r.evidence, Payloads(ops[at..], EvidenceIn));
    Shuffled(Payloads(ops[..at], CoverageIn), r.coverage, Payloads(ops[at..], CoverageIn));
    ShuffledFindings(Payloads(ops[..at], FindingIn), Payloads(r.operations, FindingIn),
                     Payloads(ops[at..], FindingIn), r.findings);
  }

  lemma ShuffledFindings(a: seq<Finding>, b: seq<Finding>, c: seq<Finding>, rows: seq<Finding>)
    requires Erased(b) == Erased(rows)
    ensures multiset(Erased(a + b + c)) == multiset(Erased(rows + (a + c)))
  {
    ErasedConcat(a + b, c);
    ErasedConcat(a, b);
    ErasedConcat(a, c);
    ErasedConcat(rows, a + c);
    hide Erased;
    Shuffled(Erased(a), Erased(b), Erased(c));
  }

  /** Restoration reads a finding that came without a key under the key its operation's
      id gives, as the fold will. */
  lemma {:induction false} SurveyReadsKeys(ops: seq<Operation>)
    requires forall i :: 0 <= i < |ops| && ops[i].body.RecordFinding? ==> ops[i].body.finding.key == ""
    ensures SentFindings(ops) == SentFindings(CanonicalAll(ops))
    ensures forall i :: 0 <= i < |ops| && ops[i].body.RecordFinding? ==>
              ops[i].body.finding.(id := ops[i].id, key := FindingKey(ops[i].id)) in SentFindings(ops)
    decreases |ops|
  {
    hide Trim, FindingKey;
    var canon := CanonicalAll(ops);
    if ops != [] {
      var front, op := ops[..|ops| - 1], ops[|ops| - 1];
      SurveyReadsKeys(front);
      assert canon[..|ops| - 1] == CanonicalAll(front) && canon[|ops| - 1] == Canonical(op);
      assert SentFindings(canon) == SentFindings(CanonicalAll(front)) + FindingNames(Canonical(op));
      hide CanonicalAll;
      assert SentFindings(ops) == SentFindings(front) + FindingNames(op);
      assert forall i :: 0 <= i < |front| ==> front[i] == ops[i];
      assert op.body.RecordFinding? ==> FindingNames(op) == [op.body.finding.(id := op.id, key := FindingKey(op.id))];
    }
  }

  /** The staged stream of a corrected round. */
  function Staged(ops: seq<Operation>, held: Ledger): seq<Operation> {
    Inserted(CanonicalAll(ops), PutBack(CanonicalAll(ops), held).operations)
  }

  /** No identifier in the stream carries white space at its ends. */
  ghost predicate Trimmed(ops: seq<Operation>) {
    forall i :: 0 <= i < |ops| ==> Tight(ops[i].id)
  }

  /** The staged stream folds again exactly when no restored identifier is one of
      the stream's own once trimmed, and then every field but the records is the
      round's own while the records are the ones ApplyTo filed. */
  lemma SplicingIsCoherent(lane: Lane, ops: seq<Operation>, held: Ledger)
    requires Folded(lane, ops, true).Some? && Proper(held)
    ensures Folded(lane, Staged(ops, held), true).Some? <==> NoClash(ops, PutBack(CanonicalAll(ops), held).operations)
    ensures var long, own := Folded(lane, Staged(ops, held), true), Folded(lane, ops, true).value.result;
            long.Some? ==>
              (long.value.result == own.(records := long.value.result.records)
               && SameRows(long.value.result.records, Prepended(PutBack(CanonicalAll(ops), held), own.records)))
  {
    var canon := CanonicalAll(ops);
    var r := PutBack(canon, held);
    FoldedAgain(lane, ops, true);
    FoldExactly(lane, canon, true);
    RestoredAreRecordOps(canon, held);
    RestoredSound(canon, held.evidence, held.coverage, held.findings);
    CanonicalNames(ops, r.operations);
    hide Folded, Acceptable, Payloads, Inserted, NoClash, RecordOps, AllSettled, Checked, Filled, UsedIds, Restored,
         Proper, SameRows, Unshared, Declared, AppliedAll, CanonicalAll;
    SplicedFold(lane, canon, r.operations, true);
    SplicedRows(lane, canon, r);
    DeclaredHasRecords(lane, canon);
  }

  lemma DeclaredHasRecords(lane: Lane, ops: seq<Operation>)
    ensures Declared(lane, ops).records == DeclaredRecords(lane, ops)
  {
  }

  lemma CanonicalNames(ops: seq<Operation>, insert: seq<Operation>)
    ensures NoClash(CanonicalAll(ops), insert) == NoClash(ops, insert)
  {
    hide ReadBody, Trim;
    forall i | 0 <= i < |ops| ensures CanonicalAll(ops)[i].id == ops[i].id {}
  }

  /** A stream with trimmed identifiers always folds again. */
  lemma TrimmedNeverClashes(ops: seq<Operation>, held: Ledger)
    requires Trimmed(ops)
    ensures NoClash(ops, PutBack(CanonicalAll(ops), held).operations)
  {
    var canon := CanonicalAll(ops);
    var put := PutBack(canon, held).operations;
    RestoredSound(canon, held.evidence, held.coverage, held.findings);
    hide Restored, Unshared, Checked, Filled, Tight, Trim, ReadBody;
    forall i, j | 0 <= i < |ops| && 0 <= j < |put| ensures Trim(ops[i].id) != put[j].id {
      TrimFixed(ops[i].id);
      assert canon[i].id == ops[i].id;
      assert canon[i].id in UsedIds(canon);
    }
  }

  lemma SettledApplied(op: Operation)
    requires Settled(op)
    ensures Applied(op) == op
  {
    TrimFixed(op.id);
    hide Tight, Trim, FindingKey, ValidEvidence;
  }

  lemma AppliedConcat(a: seq<Operation>, b: seq<Operation>)
    ensures AppliedAll(a + b) == AppliedAll(a) + AppliedAll(b)
  {
    hide Applied;
  }

  lemma {:induction false} CompletionApplied(ops: seq<Operation>)
    ensures |AppliedAll(ops)| == |ops| && CompletionAt(AppliedAll(ops)) == CompletionAt(ops)
  {
    hide Trim, FindingKey;
    if ops != [] {
      var n := |ops| - 1;
      CompletionApplied(ops[..n]);
      assert AppliedAll(ops)[..n] == AppliedAll(ops[..n]);
    }
  }

  lemma InsertedApplied(ops: seq<Operation>, insert: seq<Operation>)
    requires AllSettled(insert)
    ensures AppliedAll(Inserted(ops, insert)) == Inserted(AppliedAll(ops), insert)
  {
    var at := CompletionAt(ops);
    CompletionApplied(ops);
    AppliedConcat(ops[..at] + insert, ops[at..]);
    AppliedConcat(ops[..at], insert);
    AppliedCut(ops, at);
    forall i | 0 <= i < |insert| ensures Applied(insert[i]) == insert[i] {
      assert insert[i] in insert;
      SettledApplied(insert[i]);
    }
    hide Applied, CompletionAt;
    assert AppliedAll(insert) == insert;
  }

  lemma AppliedCut(ops: seq<Operation>, at: nat)
    requires at <= |ops|
    ensures AppliedAll(ops[..at]) == AppliedAll(ops)[..at] && AppliedAll(ops[at..]) == AppliedAll(ops)[at..]
  {
    hide Applied;
  }

  lemma AppliedCanonical(ops: seq<Operation>)
    ensures AppliedAll(CanonicalAll(ops)) == AppliedAll(ops)
  {
    hide Applied, Canonical;
    forall i | 0 <= i < |ops| ensures AppliedAll(CanonicalAll(ops))[i] == AppliedAll(ops)[i] {
      AppliedReread(ops[i]);
    }
  }

  /** The applied stream ApplyTo stages is the one refolding the staged stream applies. */
  lemma StagedApplied(lane: Lane, ops: seq<Operation>, held: Ledger)
    requires Folded(lane, ops, true).Some? && Proper(held)
    requires Folded(lane, Staged(ops, held), true).Some?
    ensures Folded(lane, Staged(ops, held), true).value.applied
         == Inserted(Folded(lane, ops, true).value.applied, PutBack(CanonicalAll(ops), held).operations)
  {
    hide Folded, Acceptable, Declared, AppliedAll, Restored, Inserted, CanonicalAll, Proper, AllSettled, RecordOps, Payloads;
    var canon := CanonicalAll(ops);
    RestoredAreRecordOps(canon, held);
    FoldExactly(lane, ops, true);
    FoldExactly(lane, Staged(ops, held), true);
    InsertedApplied(canon, PutBack(canon, held).operations);
    AppliedCanonical(ops);
  }
}
