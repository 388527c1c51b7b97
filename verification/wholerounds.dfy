/** When a correction round shows everything: exactly when there is room. */
module WholeRounds {
  import opened Counting
  import opened Options
  import opened Text
  import opened Investigation
  import opened Fold
  import opened FoldSpec
  import opened Carry
  import opened PartialRound
  import opened Restoration
  import opened Refold
  import opened Rounds

  // ---- Nothing comes back that was not missing ----

  lemma {:induction false} AdmitFrom(s: Restoring, more: seq<Operation>)
    ensures forall op :: op in Admit(s, more).records.operations ==> op in s.records.operations || op in more
    decreases |more|
  {
    hide Fits;
    if more != [] {
      AdmitFrom(s, more[..|more| - 1]);
    }
  }

  lemma OnlyMissingReturn(ops: seq<Operation>, held: Ledger)
    requires ProperFindings(held.findings) && NamesFree(ops, held)
    ensures forall op :: op in PutBack(ops, held).operations ==>
              || op in MissingEvidence(held.evidence, SentEvidence(ops))
              || op in MissingCoverage(held.coverage, SentCoverage(ops))
              || op in MissingFindings(held.findings, SentFindings(ops))
  {
    hide ProperFindings, NamesFree, MissingEvidence, MissingCoverage, MissingFindings, SentEvidence, SentCoverage,
         SentFindings, Admit, AllEvidence, AllCoverage, AllFindings;
    if ops != [] {
      RestoredIsAdmitted(ops, held);
      var a, b := MissingEvidence(held.evidence, SentEvidence(ops)), MissingCoverage(held.coverage, SentCoverage(ops));
      var c := MissingFindings(held.findings, SentFindings(ops));
      AdmitFrom(Opening(ops), a);
      AdmitFrom(Admit(Opening(ops), a), b);
      AdmitFrom(Admit(Admit(Opening(ops), a), b), c);
    }
  }

  lemma {:induction false} EvidenceMissing(rows: seq<Evidence>, sent: set<string>, op: Operation)
    requires op in MissingEvidence(rows, sent)
    ensures op.body.RecordEvidence? && op == EvidenceOp(op.body.evidence)
    ensures op.body.evidence in rows && op.body.evidence.id !in sent
    decreases |rows|
  {
    var front, row := rows[..|rows| - 1], rows[|rows| - 1];
    if op in MissingEvidence(front, sent) {
      EvidenceMissing(front, sent, op);
    } else {
      assert row in rows;
    }
  }

  lemma {:induction false} CoverageMissing(rows: seq<Coverage>, sent: set<string>, op: Operation) returns (at: nat)
    requires op in MissingCoverage(rows, sent)
    ensures at < |rows| && op == CoverageOp(rows[at], at) && LayerName(rows[at]) !in sent
    decreases |rows|
  {
    hide CoverageIdentity, CoverageOp;
    var front, row := rows[..|rows| - 1], rows[|rows| - 1];
    if op in MissingCoverage(front, sent) {
      at := CoverageMissing(front, sent, op);
    } else {
      at := |rows| - 1;
    }
  }

  lemma {:induction false} FindingMissing(rows: seq<Finding>, sent: seq<Finding>, op: Operation)
    requires ProperFindings(rows) && op in MissingFindings(rows, sent)
    ensures op.body.RecordFinding? && op == Operation(op.body.finding.key, op.body)
    ensures op.body.finding in rows && !Answered(op.body.finding, sent)
    decreases |rows|
  {
    hide Answered, FindingKey, Tight, ByteLen;
    var front, row := rows[..|rows| - 1], rows[|rows| - 1];
    if op in MissingFindings(front, sent) {
      FindingMissing(front, sent, op);
    } else {
      assert row in rows;
      assert op == FindingOp(FindingId(row), row);
      assert row.(key := row.key) == row;
    }
  }

  // ---- What the round recorded, it sent ----

  lemma OwnEvidenceIsSent(lane: Lane, ops: seq<Operation>, id: string)
    requires Folded(lane, ops, true).Some?
    requires NameIn(Own(lane, ops).evidence, EvidenceId, id)
    ensures id in SentEvidence(CanonicalAll(ops))
  {
    hide Folded, Trim, Payloads, Own, Acceptable, FindingKey, Tight, ValidEvidence;
    OwnRows(lane, ops);
    OwnEvidenceProper(lane, ops);
    var e :| e in Own(lane, ops).evidence && EvidenceId(e) == id;
    var at := PayloadSource(ops, EvidenceIn, e);
    assert e.id in EvidenceNames(CanonicalAll(ops)[at]);
  }

  lemma OwnLayerIsSent(lane: Lane, ops: seq<Operation>, layer: string)
    requires Folded(lane, ops, true).Some?
    requires NameIn(Own(lane, ops).coverage, LayerName, layer)
    ensures layer in SentCoverage(CanonicalAll(ops))
  {
    hide Folded, Trim, Payloads, Own, Acceptable, FindingKey, CoverageIdentity;
    OwnRows(lane, ops);
    var c :| c in Own(lane, ops).coverage && LayerName(c) == layer;
    var at := PayloadSource(ops, CoverageIn, c);
    assert layer in LayerNames(CanonicalAll(ops)[at]);
  }

  lemma OwnFindingIsSent(lane: Lane, ops: seq<Operation>, row: Finding)
    requires Folded(lane, ops, true).Some? && WellKeyed(ops) && OwnKey(Trim(row.key))
    requires NameIn(Own(lane, ops).findings, FindingName, FindingName(row))
    ensures Answered(row, SentFindings(CanonicalAll(ops)))
  {
    hide Folded, Trim, Payloads, Own, Acceptable, FindingKey, OwnKey, SameFinding;
    OwnRows(lane, ops);
    var canon := CanonicalAll(ops);
    var f :| f in Own(lane, ops).findings && FindingName(f) == FindingName(row);
    var at := PayloadSource(ops, FindingIn, f);
    TrimmedKey(ops[at].id);
    assert ops[at] in ops;
    NotEmpty(FindingKey(ops[at].id));
    var said := FindingNames(canon[at])[0];
    assert said.key == FindingKey(ops[at].id);
    SameKeys(row, said);
    assert canon[at] in canon;
    PayloadMember(canon, FindingNames, canon[at], said);
  }

  // ---- What is shown and was not sent was put back ----

  lemma MustBePut<T>(held: seq<T>, part: seq<T>, own: seq<T>, name: T -> string, x: T)
    requires DistinctKeys(held, name) && x in held && !NameIn(own, name, name(x))
    requires forall y :: y in part ==> y in held
    requires ByKey(part + own, name) == ByKey(held, name) + ByKey(own, name)
    ensures x in part
  {
    hide DistinctKeys, ByKey;
    ByKeyNames(part + own, name);
    ByKeyNames(held, name);
    assert NameIn(part + own, name, name(x));
    var y :| y in part + own && name(y) == name(x);
    assert y in part;
    TheRow(held, name, x);
    TheRow(held, name, y);
  }

  /** Everything held, overridden by what this round sent. */
  ghost predicate WholeShown(lane: Lane, held: Ledger, ops: seq<Operation>)
    requires Folded(lane, ops, true).Some?
  {
    var own, shown := Own(lane, ops), Shown(lane, held, ops);
    && ByKey(shown.evidence, EvidenceId) == ByKey(held.evidence, EvidenceId) + ByKey(own.evidence, EvidenceId)
    && ByKey(shown.coverage, LayerName) == ByKey(held.coverage, LayerName) + ByKey(own.coverage, LayerName)
    && ByKey(Erased(shown.findings), FindingName)
       == ByKey(held.findings, FindingName) + ByKey(Erased(own.findings), FindingName)
  }

  /** A ledger the rounds build: each row under a name of its own. */
  ghost predicate OneRowEach(held: Ledger) {
    && DistinctKeys(held.evidence, EvidenceId) && DistinctKeys(held.coverage, LayerName)
    && DistinctKeys(held.findings, FindingName)
  }

  lemma EvidenceReturned(lane: Lane, held: Ledger, ops: seq<Operation>, op: Operation)
    requires Folded(lane, ops, true).Some? && OneRowEach(held)
    requires ProperFindings(held.findings) && NamesFree(CanonicalAll(ops), held)
    requires WholeShown(lane, held, ops)
    requires op in MissingEvidence(held.evidence, SentEvidence(CanonicalAll(ops)))
    ensures op in PutBack(CanonicalAll(ops), held).operations
  {
    hide Folded, Own, Restored, ProperFindings, NamesFree, MissingEvidence, MissingCoverage, MissingFindings, Payloads,
         ByKey, DistinctKeys, NameIn, SentEvidence, SentCoverage, SentFindings, CanonicalAll;
    var canon := CanonicalAll(ops);
    EvidenceMissing(held.evidence, SentEvidence(canon), op);
    var r, e := PutBack(canon, held), op.body.evidence;
    if NameIn(Own(lane, ops).evidence, EvidenceId, e.id) {
      OwnEvidenceIsSent(lane, ops, e.id);
    }
    BackFromHeld(canon, held);
    MustBePut(held.evidence, r.evidence, Own(lane, ops).evidence, EvidenceId, e);
    RestoredSound(canon, held.evidence, held.coverage, held.findings);
    var at := PayloadSource(r.operations, EvidenceRow, e);
    assert r.operations[at] in r.operations;
    OnlyMissingReturn(canon, held);
    MissingAreRecords(held.evidence, SentEvidence(canon), held.coverage, SentCoverage(canon), held.findings, SentFindings(canon));
    EvidenceMissing(held.evidence, SentEvidence(canon), r.operations[at]);
  }

  lemma CoverageReturned(lane: Lane, held: Ledger, ops: seq<Operation>, op: Operation)
    requires Folded(lane, ops, true).Some? && OneRowEach(held)
    requires ProperFindings(held.findings) && NamesFree(CanonicalAll(ops), held)
    requires WholeShown(lane, held, ops)
    requires op in MissingCoverage(held.coverage, SentCoverage(CanonicalAll(ops)))
    ensures op in PutBack(CanonicalAll(ops), held).operations
  {
    hide Folded, Own, Restored, ProperFindings, NamesFree, MissingEvidence, MissingCoverage, MissingFindings, Payloads,
         ByKey, DistinctKeys, NameIn, SentEvidence, SentCoverage, SentFindings, CanonicalAll, CarriedOperationId, CoverageIdentity;
    var canon := CanonicalAll(ops);
    var r := PutBack(canon, held);
    var i := CoverageMissing(held.coverage, SentCoverage(canon), op);
    var c := held.coverage[i];
    if NameIn(Own(lane, ops).coverage, LayerName, LayerName(c)) {
      OwnLayerIsSent(lane, ops, LayerName(c));
    }
    BackFromHeld(canon, held);
    MustBePut(held.coverage, r.coverage, Own(lane, ops).coverage, LayerName, c);
    RestoredSound(canon, held.evidence, held.coverage, held.findings);
    var at := PayloadSource(r.operations, CoverageRow, c);
    assert r.operations[at] in r.operations;
    OnlyMissingReturn(canon, held);
    MissingAreRecords(held.evidence, SentEvidence(canon), held.coverage, SentCoverage(canon), held.findings, SentFindings(canon));
    var j := CoverageMissing(held.coverage, SentCoverage(canon), r.operations[at]);
    OnePlace(held.coverage, LayerName, i, j);
  }

  lemma OnePlace<T>(rows: seq<T>, name: T -> string, i: nat, j: nat)
    requires DistinctKeys(rows, name) && i < |rows| && j < |rows| && rows[i] == rows[j]
    ensures i == j
  {
  }

  lemma FindingReturned(lane: Lane, held: Ledger, ops: seq<Operation>, op: Operation)
    requires Folded(lane, ops, true).Some? && OneRowEach(held) && WellKeyed(ops)
    requires ProperFindings(held.findings) && NamesFree(CanonicalAll(ops), held)
    requires WholeShown(lane, held, ops)
    requires op in MissingFindings(held.findings, SentFindings(CanonicalAll(ops)))
    ensures op in PutBack(CanonicalAll(ops), held).operations
  {
    hide Folded, Own, Restored, NamesFree, MissingEvidence, MissingCoverage, MissingFindings, Payloads, Answered, OwnKey,
         ByteLen, Erased, WellKeyed, ByKey, DistinctKeys, NameIn, SentEvidence, SentCoverage, SentFindings, CanonicalAll;
    var canon := CanonicalAll(ops);
    FindingMissing(held.findings, SentFindings(canon), op);
    var r, own, f := PutBack(canon, held), Own(lane, ops).findings, op.body.finding;
    ProperKeys(held.findings);
    ErasedName(own, FindingName(f));
    if NameIn(own, FindingName, FindingName(f)) {
      OwnFindingIsSent(lane, ops, f);
    }
    FindingsFromHeld(canon, held);
    AlreadyErased(r.findings);
    ErasedConcat(r.findings, own);
    MustBePut(held.findings, r.findings, Erased(own), FindingName, f);
    RestoredSound(canon, held.evidence, held.coverage, held.findings);
    var at := PayloadSource(r.operations, FindingRow, f);
    assert r.operations[at] in r.operations;
    OnlyMissingReturn(canon, held);
    MissingAreRecords(held.evidence, SentEvidence(canon), held.coverage, SentCoverage(canon), held.findings, SentFindings(canon));
    FindingMissing(held.findings, SentFindings(canon), r.operations[at]);
  }

  lemma ErasedName(rows: seq<Finding>, key: string)
    ensures NameIn(Erased(rows), FindingName, key) ==> NameIn(rows, FindingName, key)
  {
    if x :| x in Erased(rows) && FindingName(x) == key {
      var i :| 0 <= i < |rows| && Erased(rows)[i] == x;
      assert rows[i] in rows && FindingName(rows[i]) == key;
    }
  }

  // ---- Counting ----

  lemma ApartByName(ops: seq<Operation>)
    requires Unshared(ops)
    ensures Distinct(ops)
  {
  }

  lemma CheckedPart(part: seq<Operation>, ops: seq<Operation>)
    requires Checked(ops) && forall op :: op in part ==> op in ops
    ensures Checked(part)
  {
    hide Valid, RecordBody;
    assert forall i :: 0 <= i < |part| ==> part[i] in ops;
  }

  /** A round shows everything held, overridden by what it sent itself, if and only
      if there is room for every row it left out. */
  lemma WholeExactlyWhenRoom(lane: Lane, held: Ledger, ops: seq<Operation>)
    requires Folded(lane, ops, true).Some? && WellKeyed(ops)
    requires Proper(held) && OneRowEach(held) && NamesFree(CanonicalAll(ops), held)
    ensures WholeShown(lane, held, ops) <==> RoomForAll(CanonicalAll(ops), held)
  {
    hide Folded, Own, Shown, Restored, WellKeyed, ProperEvidence, ProperFindings, MissingEvidence, MissingCoverage,
         MissingFindings, ByKey, DistinctKeys, SentEvidence, SentCoverage, SentFindings, CanonicalAll, Erased,
         Checked, Unshared, Fresh, UsedIds, Filled, Acceptable, Payloads;
    if RoomForAll(CanonicalAll(ops), held) {
      EvidenceShown(lane, held, ops);
      CoverageShown(lane, held, ops);
      FindingsShown(lane, held, ops);
    }
    if WholeShown(lane, held, ops) {
      var canon := CanonicalAll(ops);
      var r, missing := PutBack(canon, held), Missing(canon, held.evidence, held.coverage, held.findings);
      forall op | op in missing ensures op in r.operations {
        if op in MissingEvidence(held.evidence, SentEvidence(canon)) {
          EvidenceReturned(lane, held, ops, op);
        } else if op in MissingCoverage(held.coverage, SentCoverage(canon)) {
          CoverageReturned(lane, held, ops, op);
        } else {
          FindingReturned(lane, held, ops, op);
        }
      }
      OwnRows(lane, ops);
      RestoredSound(canon, held.evidence, held.coverage, held.findings);
      ApartByName(missing);
      NoMoreThan(missing, r.operations);
      CheckedPart(missing, r.operations);
    }
  }
}
