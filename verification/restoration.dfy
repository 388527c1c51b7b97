/** What restoration promises: which rows come back, under which identifiers, and
    when every row the round left out does. */
module Restoration {
  import opened Options
  import opened Text
  import opened Investigation
  import opened Fold
  import opened FoldSpec
  import opened Carry
  import opened PartialRound
  import opened Splice

  function EvidenceRow(op: Operation): seq<Evidence> {
    if op.body.RecordEvidence? then [op.body.evidence] else []
  }

  function CoverageRow(op: Operation): seq<Coverage> {
    if op.body.RecordCoverage? then [op.body.coverage] else []
  }

  function FindingRow(op: Operation): seq<Finding> {
    if op.body.RecordFinding? then [op.body.finding] else []
  }

  predicate RecordBody(b: Body) {
    b.RecordEvidence? || b.RecordCoverage? || b.RecordFinding?
  }

  ghost predicate Unshared(ops: seq<Operation>) {
    forall i, j :: 0 <= i < j < |ops| ==> ops[i].id != ops[j].id
  }

  ghost predicate Fresh(ids: set<string>, ops: seq<Operation>) {
    forall i :: 0 <= i < |ops| ==> ops[i].id !in ids
  }

  ghost predicate Checked(ops: seq<Operation>) {
    forall i :: 0 <= i < |ops| ==> Valid(ops[i]) && RecordBody(ops[i].body)
  }

  /** The three lists are the rows of the operations. */
  ghost predicate Filled(r: CarriedRecords) {
    && r.evidence == Payloads(r.operations, EvidenceRow)
    && r.coverage == Payloads(r.operations, CoverageRow)
    && r.findings == Payloads(r.operations, FindingRow)
  }

  /** What restoration keeps true after every row. */
  ghost predicate Sound(ops: seq<Operation>, s: Restoring) {
    var put := s.records.operations;
    && s.used == UsedIds(ops) + UsedIds(put)
    && s.room == MAX_OPERATIONS - |ops| - |put|
    && (put == [] || s.room >= 0)
    && Unshared(put) && Fresh(UsedIds(ops), put) && Checked(put)
    && Filled(s.records)
  }

  lemma UsedSnoc(ops: seq<Operation>, op: Operation)
    ensures UsedIds(ops + [op]) == UsedIds(ops) + {op.id}
    ensures Unshared(ops + [op]) <==> Unshared(ops) && op.id !in UsedIds(ops)
  {
    var more := ops + [op];
    assert forall i :: 0 <= i < |ops| ==> more[i] == ops[i];
    assert more[|ops|] == op;
  }

  lemma CheckedSnoc(ids: set<string>, ops: seq<Operation>, op: Operation)
    ensures Checked(ops + [op]) <==> Checked(ops) && Valid(op) && RecordBody(op.body)
    ensures Fresh(ids, ops + [op]) <==> Fresh(ids, ops) && op.id !in ids
  {
    hide Valid, RecordBody;
    var more := ops + [op];
    assert forall i :: 0 <= i < |ops| ==> more[i] == ops[i];
    assert more[|ops|] == op;
  }

  lemma FilledSnoc(r: CarriedRecords, op: Operation)
    requires Filled(r) && RecordBody(op.body)
    ensures Filled(Filed(r.(operations := r.operations + [op]), op.body))
  {
    Snoc(r.operations, op, EvidenceRow);
    Snoc(r.operations, op, CoverageRow);
    Snoc(r.operations, op, FindingRow);
  }

  lemma PutSound(ops: seq<Operation>, s: Restoring, op: Operation)
    requires Sound(ops, s) && RecordBody(op.body)
    ensures Sound(ops, Put(s, op))
    ensures Put(s, op).records.operations == s.records.operations + if Fits(s, op) then [op] else []
  {
    hide Valid, Payloads, UsedIds, Unshared, Fresh, Checked, Filled;
    UsedSnoc(s.records.operations, op);
    CheckedSnoc(UsedIds(ops), s.records.operations, op);
    FilledSnoc(s.records, op);
  }

  /** Offering a list of operations one by one. */
  function Admit(s: Restoring, ops: seq<Operation>): Restoring
    decreases |ops|
  {
    if ops == [] then s else Put(Admit(s, ops[..|ops| - 1]), ops[|ops| - 1])
  }

  lemma {:induction false} AdmitConcat(s: Restoring, a: seq<Operation>, b: seq<Operation>)
    ensures Admit(s, a + b) == Admit(Admit(s, a), b)
    decreases |b|
  {
    if b == [] {
      assert a + b == a;
    } else {
      assert (a + b)[..|a + b| - 1] == a + b[..|b| - 1];
      AdmitConcat(s, a, b[..|b| - 1]);
      hide Put;
    }
  }

  /** The rows the round left out, as the operations that would carry them. */
  function MissingEvidence(rows: seq<Evidence>, sent: set<string>): seq<Operation> {
    if rows == [] then []
    else
      var row := rows[|rows| - 1];
      MissingEvidence(rows[..|rows| - 1], sent) + if row.id == "" || row.id in sent then [] else [EvidenceOp(row)]
  }

  function MissingCoverage(rows: seq<Coverage>, sent: set<string>): seq<Operation> {
    if rows == [] then []
    else
      var row := rows[|rows| - 1];
      MissingCoverage(rows[..|rows| - 1], sent)
      + if CoverageIdentity(row.layer) in sent then [] else [CoverageOp(row, |rows| - 1)]
  }

  function MissingFindings(rows: seq<Finding>, sent: seq<Finding>): seq<Operation> {
    if rows == [] then []
    else
      var row := rows[|rows| - 1];
      MissingFindings(rows[..|rows| - 1], sent)
      + if Answered(row, sent) then [] else [FindingOp(FindingId(row), row)]
  }

  function Missing(ops: seq<Operation>, evidence: seq<Evidence>, coverage: seq<Coverage>, findings: seq<Finding>)
    : seq<Operation>
  {
    MissingEvidence(evidence, SentEvidence(ops)) + MissingCoverage(coverage, SentCoverage(ops))
    + MissingFindings(findings, SentFindings(ops))
  }

  lemma {:induction false} EvidenceAdmitted(s: Restoring, rows: seq<Evidence>, sent: set<string>)
    ensures AllEvidence(s, rows, sent) == Admit(s, MissingEvidence(rows, sent))
    decreases |rows|
  {
    if rows != [] {
      var row, front := rows[|rows| - 1], rows[..|rows| - 1];
      EvidenceAdmitted(s, front, sent);
      hide Put;
      if row.id != "" && row.id !in sent {
        AdmitOne(s, MissingEvidence(front, sent), EvidenceOp(row));
      } else {
        assert MissingEvidence(rows, sent) == MissingEvidence(front, sent);
      }
    }
  }

  lemma AdmitOne(s: Restoring, ops: seq<Operation>, op: Operation)
    ensures Admit(s, ops + [op]) == Put(Admit(s, ops), op)
  {
    hide Put;
    assert (ops + [op])[..|ops|] == ops;
  }

  lemma {:induction false} CoverageAdmitted(s: Restoring, rows: seq<Coverage>, sent: set<string>)
    ensures AllCoverage(s, rows, sent) == Admit(s, MissingCoverage(rows, sent))
    decreases |rows|
  {
    if rows != [] {
      var row, front := rows[|rows| - 1], rows[..|rows| - 1];
      CoverageAdmitted(s, front, sent);
      hide Put, CoverageIdentity;
      if CoverageIdentity(row.layer) !in sent {
        AdmitOne(s, MissingCoverage(front, sent), CoverageOp(row, |rows| - 1));
      } else {
        assert MissingCoverage(rows, sent) == MissingCoverage(front, sent);
      }
    }
  }

  lemma {:induction false} AdmitSound(ops: seq<Operation>, s: Restoring, more: seq<Operation>)
    requires Sound(ops, s)
    requires forall i :: 0 <= i < |more| ==> RecordBody(more[i].body)
    ensures Sound(ops, Admit(s, more))
    decreases |more|
  {
    if more != [] {
      AdmitSound(ops, s, more[..|more| - 1]);
      PutSound(ops, Admit(s, more[..|more| - 1]), more[|more| - 1]);
      hide Sound, Put;
    }
  }

  /** Every operation on the list fits: room for all, and no name taken or shared. */
  ghost predicate Clear(s: Restoring, more: seq<Operation>) {
    |more| <= s.room && Unshared(more) && Fresh(s.used, more) && Checked(more)
  }

  lemma ClearSplit(s: Restoring, a: seq<Operation>, b: seq<Operation>)
    requires Clear(s, a + b)
    ensures Clear(s, a) && Unshared(b) && Checked(b) && Fresh(s.used, b) && Fresh(UsedIds(a), b)
  {
    hide Valid, RecordBody;
    assert forall i :: 0 <= i < |a| ==> (a + b)[i] == a[i];
    assert forall i :: 0 <= i < |b| ==> (a + b)[|a| + i] == b[i];
  }

  /** What is clear of a state is clear of it once the first part has gone in. */
  lemma ClearRest(ops: seq<Operation>, s: Restoring, next: Restoring, a: seq<Operation>, b: seq<Operation>)
    requires Sound(ops, s) && Sound(ops, next) && Clear(s, a + b)
    requires next.records.operations == s.records.operations + a
    ensures Clear(next, b)
  {
    ClearSplit(s, a, b);
    UsedConcat(s.records.operations, a);
    hide Valid, RecordBody, Payloads, Filled, UsedIds, Unshared, Checked;
    assert next.used == s.used + UsedIds(a);
  }

  lemma ClearFits(s: Restoring, op: Operation)
    requires Clear(s, [op])
    ensures Fits(s, op) && RecordBody(op.body)
  {
    assert [op][0] == op;
    hide Valid, RecordBody;
  }

  lemma Regroup<T>(a: seq<T>, b: seq<T>, c: seq<T>)
    ensures a + b + c == a + (b + c)
  {
  }

  lemma Unsnoc<T>(s: seq<T>)
    requires s != []
    ensures s == s[..|s| - 1] + [s[|s| - 1]]
  {
  }

  lemma {:induction false} AdmitAll(ops: seq<Operation>, s: Restoring, more: seq<Operation>)
    requires Sound(ops, s) && Clear(s, more)
    ensures Sound(ops, Admit(s, more))
    ensures Admit(s, more).records.operations == s.records.operations + more
    decreases |more|
  {
    if more != [] {
      var front, op := more[..|more| - 1], more[|more| - 1];
      Unsnoc(more);
      hide Sound, Clear, Put, Fits;
      Regroup(s.records.operations, front, [op]);
      ClearSplit(s, front, [op]);
      AdmitAll(ops, s, front);
      var held := Admit(s, front);
      ClearRest(ops, s, held, front, [op]);
      ClearFits(held, op);
      PutSound(ops, held, op);
    }
  }

  lemma UsedConcat(a: seq<Operation>, b: seq<Operation>)
    ensures UsedIds(a + b) == UsedIds(a) + UsedIds(b)
  {
    assert forall i :: 0 <= i < |a| ==> (a + b)[i] == a[i];
    assert forall i :: 0 <= i < |b| ==> (a + b)[|a| + i] == b[i];
  }

  lemma {:induction false} FindingsSound(ops: seq<Operation>, s: Restoring, rows: seq<Finding>, sent: seq<Finding>)
    requires Sound(ops, s)
    ensures Sound(ops, AllFindings(s, rows, sent))
    decreases |rows|
  {
    if rows != [] {
      var row, front := rows[|rows| - 1], rows[..|rows| - 1];
      FindingsSound(ops, s, front, sent);
      var held := AllFindings(s, front, sent);
      PutSound(ops, held, FindingOp(RestoredFindingId(row, |rows| - 1, held.used), row));
      hide Sound, Put, Answered, FindingKey, RestoredFindingId;
    }
  }

  lemma {:induction false} MissingAreRecords(
    rows: seq<Evidence>, sentEvidence: set<string>, layers: seq<Coverage>, sentCoverage: set<string>,
    findings: seq<Finding>, sent: seq<Finding>)
    ensures forall op :: op in MissingEvidence(rows, sentEvidence) ==> op.body.RecordEvidence?
    ensures forall op :: op in MissingCoverage(layers, sentCoverage) ==> op.body.RecordCoverage?
    ensures forall op :: op in MissingFindings(findings, sent) ==> op.body.RecordFinding?
    decreases |rows| + |layers| + |findings|
  {
    hide Answered, CoverageIdentity, FindingKey;
    if rows != [] {
      MissingAreRecords(rows[..|rows| - 1], sentEvidence, layers, sentCoverage, findings, sent);
    } else if layers != [] {
      MissingAreRecords(rows, sentEvidence, layers[..|layers| - 1], sentCoverage, findings, sent);
    } else if findings != [] {
      MissingAreRecords(rows, sentEvidence, layers, sentCoverage, findings[..|findings| - 1], sent);
    }
  }

  lemma StateSound(ops: seq<Operation>, evidence: seq<Evidence>, coverage: seq<Coverage>, findings: seq<Finding>)
    ensures var one := AllEvidence(Opening(ops), evidence, SentEvidence(ops));
            var two := AllCoverage(one, coverage, SentCoverage(ops));
            Sound(ops, AllFindings(two, findings, SentFindings(ops)))
  {
    hide Sound, Admit, AllEvidence, AllCoverage, AllFindings, SentEvidence, SentCoverage, SentFindings,
         MissingEvidence, MissingCoverage, RecordBody;
    OpeningSound(ops);
    var s, t, f := SentEvidence(ops), SentCoverage(ops), SentFindings(ops);
    MissingAreRecords(evidence, s, coverage, t, findings, f);
    RecordBodies(MissingEvidence(evidence, s));
    RecordBodies(MissingCoverage(coverage, t));
    AdmitSound(ops, Opening(ops), MissingEvidence(evidence, s));
    EvidenceAdmitted(Opening(ops), evidence, s);
    var one := AllEvidence(Opening(ops), evidence, s);
    AdmitSound(ops, one, MissingCoverage(coverage, t));
    CoverageAdmitted(one, coverage, t);
    FindingsSound(ops, AllCoverage(one, coverage, t), findings, f);
  }

  lemma RecordBodies(ops: seq<Operation>)
    requires forall op :: op in ops ==> op.body.RecordEvidence? || op.body.RecordCoverage?
    ensures forall i :: 0 <= i < |ops| ==> RecordBody(ops[i].body)
  {
  }

  /** Restoration never exceeds the bound, never takes a name the round uses, never
      uses one twice, and files exactly the rows of its operations. */
  lemma RestoredSound(ops: seq<Operation>, evidence: seq<Evidence>, coverage: seq<Coverage>, findings: seq<Finding>)
    ensures var r := Restored(ops, evidence, coverage, findings);
            && Unshared(r.operations) && Fresh(UsedIds(ops), r.operations) && Checked(r.operations)
            && Filled(r)
            && (r.operations == [] || |ops| + |r.operations| <= MAX_OPERATIONS)
  {
    StateSound(ops, evidence, coverage, findings);
    OpeningSound(ops);
    hide AllEvidence, AllCoverage, AllFindings, SentEvidence, SentCoverage, SentFindings, Checked, UsedIds, Filled;
  }

  lemma OpeningSound(ops: seq<Operation>)
    ensures Sound(ops, Opening(ops)) && Filled(NOTHING)
  {
    assert UsedIds([]) == {};
  }

  lemma {:induction false} AdmitUsed(s: Restoring, more: seq<Operation>)
    ensures Admit(s, more).used <= s.used + UsedIds(more)
    decreases |more|
  {
    if more != [] {
      var front, op := more[..|more| - 1], more[|more| - 1];
      Unsnoc(more);
      UsedSnoc(front, op);
      AdmitUsed(s, front);
      hide UsedIds, Admit, Fits;
      AdmitOne(s, front, op);
    }
  }

  /** Names a finding may be restored under without falling back on a made-up one. */
  ghost predicate OwnNames(used: set<string>, more: seq<Operation>) {
    && Unshared(more) && Fresh(used, more)
    && (forall i :: 0 <= i < |more| ==> more[i].id != "" && ByteLen(more[i].id) <= MAX_ID_BYTES)
  }

  lemma OwnNamesSnoc(used: set<string>, more: seq<Operation>, op: Operation)
    requires OwnNames(used, more + [op])
    ensures OwnNames(used, more)
    ensures op.id !in used + UsedIds(more) && op.id != "" && ByteLen(op.id) <= MAX_ID_BYTES
  {
    hide ByteLen;
    assert (more + [op])[|more|] == op;
    assert forall i :: 0 <= i < |more| ==> (more + [op])[i] == more[i];
  }

  lemma {:induction false} FindingsAdmitted(s: Restoring, rows: seq<Finding>, sent: seq<Finding>)
    requires OwnNames(s.used, MissingFindings(rows, sent))
    ensures AllFindings(s, rows, sent) == Admit(s, MissingFindings(rows, sent))
    decreases |rows|
  {
    hide OwnNames, UsedIds, Put, Answered, FindingKey, ByteLen, CarriedOperationId;
    if rows != [] {
      var row, front := rows[|rows| - 1], rows[..|rows| - 1];
      var before := MissingFindings(front, sent);
      if Answered(row, sent) {
        assert MissingFindings(rows, sent) == before;
        FindingsAdmitted(s, front, sent);
      } else {
        var op := FindingOp(FindingId(row), row);
        assert MissingFindings(rows, sent) == before + [op];
        OwnNamesSnoc(s.used, before, op);
        FindingsAdmitted(s, front, sent);
        AdmitUsed(s, before);
        AdmitOne(s, before, op);
      }
    }
  }

  lemma ClearNames(s: Restoring, more: seq<Operation>)
    requires Clear(s, more)
    ensures OwnNames(s.used, more)
  {
    hide Valid, ByteLen, RecordBody;
    forall i | 0 <= i < |more| ensures more[i].id != "" && ByteLen(more[i].id) <= MAX_ID_BYTES {
      ValidName(more[i]);
    }
  }

  lemma ValidName(op: Operation)
    requires Valid(op)
    ensures op.id != "" && ByteLen(op.id) <= MAX_ID_BYTES
  {
    hide ValidBody, ByteLen;
    TrimFixed("");
  }

  /** Every row the round left out comes back, under the name it has always had,
      exactly when there is room for all of them, each passes Validate, and no name
      is shared or already used by the round. */
  lemma EverythingMissingReturns(
    ops: seq<Operation>, evidence: seq<Evidence>, coverage: seq<Coverage>, findings: seq<Finding>)
    requires ops != [] && |ops| <= MAX_OPERATIONS
    ensures Restored(ops, evidence, coverage, findings).operations == Missing(ops, evidence, coverage, findings)
       <==> Clear(Opening(ops), Missing(ops, evidence, coverage, findings))
  {
    RestoredSound(ops, evidence, coverage, findings);
    if Clear(Opening(ops), Missing(ops, evidence, coverage, findings)) {
      ClearReturns(ops, evidence, coverage, findings);
    }
    hide Restored, Missing, Checked, Unshared, UsedIds, Filled;
  }

  /** One more list, after the lists already admitted from the opening state. */
  lemma AdmitNext(ops: seq<Operation>, held: Restoring, before: seq<Operation>, more: seq<Operation>)
    requires Sound(ops, held) && held.records.operations == before && Clear(Opening(ops), before + more)
    ensures Clear(held, more)
    ensures Sound(ops, Admit(held, more)) && Admit(held, more).records.operations == before + more
  {
    OpeningSound(ops);
    EmptyFirst(before);
    assert Opening(ops).records.operations == [];
    hide Sound, Clear, Opening;
    ClearRest(ops, Opening(ops), held, before, more);
    AdmitAll(ops, held, more);
  }

  lemma EmptyFirst<T>(s: seq<T>)
    ensures [] + s == s
  {
  }

  lemma ClearReturns(
    ops: seq<Operation>, evidence: seq<Evidence>, coverage: seq<Coverage>, findings: seq<Finding>)
    requires ops != []
    requires Clear(Opening(ops), Missing(ops, evidence, coverage, findings))
    ensures Restored(ops, evidence, coverage, findings).operations == Missing(ops, evidence, coverage, findings)
  {
    hide MissingEvidence, MissingCoverage, MissingFindings, AllEvidence, AllCoverage, AllFindings, SentFindings,
         SentEvidence, SentCoverage, Admit;
    var s, t, f := SentEvidence(ops), SentCoverage(ops), SentFindings(ops);
    var a, b, c := MissingEvidence(evidence, s), MissingCoverage(coverage, t), MissingFindings(findings, f);
    OpeningSound(ops);
    hide Sound, Clear;
    ClearSplit(Opening(ops), a + b, c);
    ClearSplit(Opening(ops), a, b);
    EmptyFirst(a);
    AdmitNext(ops, Opening(ops), [], a);
    EvidenceAdmitted(Opening(ops), evidence, s);
    var one := AllEvidence(Opening(ops), evidence, s);
    AdmitNext(ops, one, a, b);
    CoverageAdmitted(one, coverage, t);
    var two := AllCoverage(one, coverage, t);
    AdmitNext(ops, two, a + b, c);
    ClearNames(two, c);
    FindingsAdmitted(two, findings, f);
  }
}
