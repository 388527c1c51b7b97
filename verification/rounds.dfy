/** Any number of correction rounds, each sending only what it changes. */
module Rounds {
  import opened Options
  import opened Text
  import opened Investigation
  import opened Fold
  import opened FoldSpec
  import opened Carry
  import opened PartialRound
  import opened Restoration
  import opened Refold
  import opened LastWords
  import opened Sanitize

  function LayerName(c: Coverage): string {
    CoverageIdentity(c.layer)
  }

  function FindingName(f: Finding): string {
    Trim(f.key)
  }

  // ---- Last writer wins, for rows of any kind ----

  ghost predicate NameIn<T>(rows: seq<T>, name: T -> string, k: string) {
    exists x :: x in rows && name(x) == k
  }

  lemma ByKeyNames<T>(rows: seq<T>, name: T -> string)
    ensures forall k :: k in ByKey(rows, name) <==> NameIn(rows, name, k)
    ensures forall k :: k in ByKey(rows, name) ==> ByKey(rows, name)[k] in rows && name(ByKey(rows, name)[k]) == k
  {
    ByKeyDomain(rows, name);
  }

  lemma TheRow<T>(held: seq<T>, name: T -> string, x: T)
    requires DistinctKeys(held, name) && x in held
    ensures name(x) in ByKey(held, name) && ByKey(held, name)[name(x)] == x
  {
    ByKeyExact(held, name);
  }

  /** Any part of what was held, ahead of what the round sent, overrides what was
      held as long as the rows left out are rows the round sent itself. */
  lemma Override<T>(held: seq<T>, part: seq<T>, own: seq<T>, name: T -> string)
    requires DistinctKeys(held, name)
    requires forall x :: x in part ==> x in held
    requires forall x :: x in held ==> x in part || NameIn(own, name, name(x))
    ensures ByKey(part + own, name) == ByKey(held, name) + ByKey(own, name)
  {
    hide ByKey, DistinctKeys;
    ByKeyConcat(part, own, name);
    ByKeyNames(part, name);
    ByKeyNames(own, name);
    ByKeyNames(held, name);
    var all, want := ByKey(part, name) + ByKey(own, name), ByKey(held, name) + ByKey(own, name);
    forall k ensures k in all <==> k in want {
      if k in ByKey(held, name) {
        assert ByKey(held, name)[k] in part || NameIn(own, name, k);
      }
    }
    forall k | k in all && k !in ByKey(own, name) ensures all[k] == want[k] {
      TheRow(held, name, ByKey(part, name)[k]);
    }
  }

  /** carryForward of what is left of the ledger and what the round showed. */
  lemma KeptOverride<T>(held: seq<T>, left: seq<T>, back: seq<T>, own: seq<T>, key: T -> string, name: T -> string)
    requires DistinctKeys(held, key) && Keyed(held + own, key) && NamedAlike(held + own, key, name)
    requires forall x :: x in left || x in back ==> x in held
    requires forall x :: x in held ==> x in left || x in back || NameIn(own, name, name(x))
    ensures var kept := MergeAll(left + (back + own), key);
            && ByKey(kept, name) == ByKey(held, name) + ByKey(own, name)
            && DistinctKeys(kept, key)
            && (forall x :: x in kept ==> x in held || x in own)
  {
    var items := left + (back + own);
    assert items == (left + back) + own;
    assert forall x :: x in items ==> x in held + own;
    assert forall x :: x in left + back <==> x in left || x in back;
    DistinctNames(held, key, name);
    Override(held, left + back, own, name);
    MergeIsOverride(items, key, name);
    MergeMembers(items, key);
  }

  // ---- Which rows restoration puts back ----

  lemma {:induction false} PayloadMember<T>(ops: seq<Operation>, pick: Operation -> seq<T>, op: Operation, x: T)
    requires op in ops && x in pick(op)
    ensures x in Payloads(ops, pick)
  {
    var front, last := ops[..|ops| - 1], ops[|ops| - 1];
    if op != last {
      assert op in front;
      PayloadMember(front, pick, op, x);
    }
  }

  /** No row appears that was neither there before nor on the list offered. */
  ghost predicate GrowsBy(a: CarriedRecords, b: CarriedRecords, held: Ledger) {
    && (forall e :: e in b.evidence ==> e in a.evidence || e in held.evidence)
    && (forall c :: c in b.coverage ==> c in a.coverage || c in held.coverage)
    && (forall f :: f in b.findings ==> f in a.findings || f in held.findings)
  }

  lemma {:induction false} EvidenceFrom(s: Restoring, rows: seq<Evidence>, sent: set<string>)
    ensures GrowsBy(s.records, AllEvidence(s, rows, sent).records, Ledger(rows, [], []))
    decreases |rows|
  {
    if rows != [] {
      var front := rows[..|rows| - 1];
      EvidenceFrom(s, front, sent);
      PutGrows(AllEvidence(s, front, sent), EvidenceOp(rows[|rows| - 1]));
      hide Put;
    }
  }

  lemma PutGrows(s: Restoring, op: Operation)
    ensures forall e :: e in Put(s, op).records.evidence ==> e in s.records.evidence || op.body == RecordEvidence(e)
    ensures forall c :: c in Put(s, op).records.coverage ==> c in s.records.coverage || op.body == RecordCoverage(c)
    ensures forall f :: f in Put(s, op).records.findings ==> f in s.records.findings || op.body == RecordFinding(f)
  {
    hide Fits;
  }

  lemma {:induction false} CoverageFrom(s: Restoring, rows: seq<Coverage>, sent: set<string>)
    ensures GrowsBy(s.records, AllCoverage(s, rows, sent).records, Ledger([], rows, []))
    decreases |rows|
  {
    if rows != [] {
      var front := rows[..|rows| - 1];
      CoverageFrom(s, front, sent);
      PutGrows(AllCoverage(s, front, sent), CoverageOp(rows[|rows| - 1], |rows| - 1));
      hide Put, CoverageIdentity, CarriedOperationId;
    }
  }

  lemma {:induction false} FindingsFrom(s: Restoring, rows: seq<Finding>, sent: seq<Finding>)
    ensures AllFindings(s, rows, sent).records.evidence == s.records.evidence
    ensures AllFindings(s, rows, sent).records.coverage == s.records.coverage
    decreases |rows|
  {
    if rows != [] {
      var front := rows[..|rows| - 1];
      FindingsFrom(s, front, sent);
      hide Fits, Answered, RestoredFindingId, FindingKey;
    }
  }

  lemma BackFromHeld(ops: seq<Operation>, held: Ledger)
    ensures forall e :: e in PutBack(ops, held).evidence ==> e in held.evidence
    ensures forall c :: c in PutBack(ops, held).coverage ==> c in held.coverage
  {
    hide AllEvidence, AllCoverage, AllFindings, SentEvidence, SentCoverage, SentFindings;
    var zero := Opening(ops);
    var one := AllEvidence(zero, held.evidence, SentEvidence(ops));
    var two := AllCoverage(one, held.coverage, SentCoverage(ops));
    EvidenceFrom(zero, held.evidence, SentEvidence(ops));
    CoverageFrom(one, held.coverage, SentCoverage(ops));
    FindingsFrom(two, held.findings, SentFindings(ops));
  }

  // ---- Findings: restored under their own keys ----

  /** No two missing rows share a name, and none is a name the round itself uses. */
  ghost predicate NamesFree(ops: seq<Operation>, held: Ledger) {
    var missing := Missing(ops, held.evidence, held.coverage, held.findings);
    Unshared(missing) && Fresh(UsedIds(ops), missing)
  }

  lemma {:induction false} MissingFindingFrom(rows: seq<Finding>, sent: seq<Finding>, op: Operation)
    requires ProperFindings(rows) && op in MissingFindings(rows, sent)
    ensures op.id != "" && ByteLen(op.id) <= MAX_ID_BYTES
    ensures op.body.RecordFinding? && op.body.finding in rows
    decreases |rows|
  {
    hide Answered, FindingKey, Tight, ByteLen;
    var front, row := rows[..|rows| - 1], rows[|rows| - 1];
    if op in MissingFindings(front, sent) {
      MissingFindingFrom(front, sent, op);
    } else {
      assert row in rows;
      assert op == FindingOp(FindingId(row), row);
      assert row.(key := row.key) == row;
    }
  }

  lemma TailNames(used: set<string>, a: seq<Operation>, b: seq<Operation>, c: seq<Operation>)
    requires Unshared(a + b + c) && Fresh(used, a + b + c)
    ensures Unshared(c) && Fresh(used + UsedIds(a) + UsedIds(b), c)
  {
    var all := a + b + c;
    assert forall i :: 0 <= i < |a| ==> all[i] == a[i];
    assert forall i :: 0 <= i < |b| ==> all[|a| + i] == b[i];
    assert forall i :: 0 <= i < |c| ==> all[|a| + |b| + i] == c[i];
  }

  lemma {:induction false} AdmitFindings(s: Restoring, more: seq<Operation>)
    ensures forall f :: f in Admit(s, more).records.findings ==>
              f in s.records.findings || exists op :: op in more && op.body == RecordFinding(f)
    decreases |more|
  {
    if more != [] {
      AdmitFindings(s, more[..|more| - 1]);
      PutGrows(Admit(s, more[..|more| - 1]), more[|more| - 1]);
      hide Put;
    }
  }

  lemma FreshLess(used: set<string>, fewer: set<string>, ops: seq<Operation>)
    requires fewer <= used && Fresh(used, ops)
    ensures Fresh(fewer, ops)
  {
  }

  /** While the names are free, restoring is offering the missing operations one by one. */
  lemma RestoredIsAdmitted(ops: seq<Operation>, held: Ledger)
    requires ProperFindings(held.findings) && NamesFree(ops, held) && ops != []
    ensures PutBack(ops, held)
         == Admit(Admit(Admit(Opening(ops), MissingEvidence(held.evidence, SentEvidence(ops))),
                        MissingCoverage(held.coverage, SentCoverage(ops))),
                  MissingFindings(held.findings, SentFindings(ops))).records
  {
    hide ProperFindings, Unshared, Fresh, UsedIds, AllEvidence, AllCoverage, AllFindings, MissingEvidence,
         MissingCoverage, MissingFindings, SentEvidence, SentCoverage, SentFindings, Admit;
    var s, t, sent := SentEvidence(ops), SentCoverage(ops), SentFindings(ops);
    var a, b, c := MissingEvidence(held.evidence, s), MissingCoverage(held.coverage, t), MissingFindings(held.findings, sent);
    var zero := Opening(ops);
    var one := AllEvidence(zero, held.evidence, s);
    var two := AllCoverage(one, held.coverage, t);
    EvidenceAdmitted(zero, held.evidence, s);
    CoverageAdmitted(one, held.coverage, t);
    AdmitUsed(zero, a);
    AdmitUsed(one, b);
    TailNames(UsedIds(ops), a, b, c);
    FreshLess(UsedIds(ops) + UsedIds(a) + UsedIds(b), two.used, c);
    forall op | op in c ensures op.id != "" && ByteLen(op.id) <= MAX_ID_BYTES {
      MissingFindingFrom(held.findings, sent, op);
    }
    AllOwnNames(two.used, c);
    FindingsAdmitted(two, held.findings, sent);
  }

  /** While the names are free, a finding comes back exactly as it was held. */
  lemma FindingsFromHeld(ops: seq<Operation>, held: Ledger)
    requires ProperFindings(held.findings) && NamesFree(ops, held)
    ensures forall f :: f in PutBack(ops, held).findings ==> f in held.findings
  {
    hide ProperFindings, NamesFree, AllEvidence, AllCoverage, AllFindings, MissingEvidence,
         MissingCoverage, MissingFindings, SentEvidence, SentCoverage, SentFindings, Admit;
    if ops != [] {
      var s, t, sent := SentEvidence(ops), SentCoverage(ops), SentFindings(ops);
      var zero := Opening(ops);
      RestoredIsAdmitted(ops, held);
      EvidenceAdmitted(zero, held.evidence, s);
      CoverageAdmitted(AllEvidence(zero, held.evidence, s), held.coverage, t);
      AdmitFindings(AllCoverage(AllEvidence(zero, held.evidence, s), held.coverage, t),
                    MissingFindings(held.findings, sent));
      forall op | op in MissingFindings(held.findings, sent) ensures op.body.RecordFinding? && op.body.finding in held.findings {
        MissingFindingFrom(held.findings, sent, op);
      }
      NoFindingsYet(zero, held.evidence, s, held.coverage, t);
    }
  }

  lemma AllOwnNames(used: set<string>, ops: seq<Operation>)
    requires Unshared(ops) && Fresh(used, ops)
    requires forall op :: op in ops ==> op.id != "" && ByteLen(op.id) <= MAX_ID_BYTES
    ensures OwnNames(used, ops)
  {
    hide ByteLen, Unshared, Fresh;
    assert forall i :: 0 <= i < |ops| ==> ops[i] in ops;
  }

  lemma {:induction false} NoFindingsYet(
    s: Restoring, rows: seq<Evidence>, sent: set<string>, layers: seq<Coverage>, sentCoverage: set<string>)
    ensures AllCoverage(AllEvidence(s, rows, sent), layers, sentCoverage).records.findings == s.records.findings
    decreases |rows| + |layers|
  {
    hide Fits, CoverageIdentity, CarriedOperationId;
    if layers != [] {
      NoFindingsYet(s, rows, sent, layers[..|layers| - 1], sentCoverage);
    } else if rows != [] {
      NoFindingsYet(s, rows[..|rows| - 1], sent, layers, sentCoverage);
    }
  }

  // ---- One round ----

  /** The records the round's own stream folds to. */
  function Own(lane: Lane, ops: seq<Operation>): Records
    requires Folded(lane, ops, true).Some?
  {
    Folded(lane, ops, true).value.result.records
  }

  /** What every reader of the round sees: its own records with the missing ones restored. */
  function Shown(lane: Lane, held: Ledger, ops: seq<Operation>): Records
    requires Folded(lane, ops, true).Some?
  {
    Prepended(PutBack(CanonicalAll(ops), held), Own(lane, ops))
  }

  /** The ledger the next round starts from: what was shown is sanitised, and so cut,
      before it is carried, and the restored rows stand ahead of the round's own. */
  function Kept(held: Ledger, shown: Records): Ledger {
    Ledger(CarriedEvidence(held.evidence, Sanitized(shown.evidence, Sanitize.MAX_EVIDENCE, CleanEvidence)),
           CarriedCoverage(held.coverage, Sanitized(shown.coverage, Sanitize.MAX_COVERAGE, CleanCoverage)),
           Erased(CarriedFindings(held.findings, Sanitized(shown.findings, Sanitize.MAX_FINDINGS, CleanFinding))))
  }

  lemma OwnRows(lane: Lane, ops: seq<Operation>)
    requires Folded(lane, ops, true).Some?
    ensures Own(lane, ops).evidence == Payloads(ops, EvidenceIn)
    ensures Own(lane, ops).coverage == Payloads(ops, CoverageIn)
    ensures Own(lane, ops).findings == Payloads(ops, FindingIn)
    ensures Acceptable(lane, ops) && ops != [] && |ops| <= MAX_OPERATIONS
  {
    FoldExactly(lane, ops, true);
    DeclaredHasRecords(lane, ops);
    hide Folded, Acceptable, Declared, AppliedAll;
  }

  lemma NameOf(id: string)
    requires ValidId(Trim(id))
    ensures Trim(id) != "" && Tight(Trim(id)) && ByteLen(Trim(id)) <= MAX_ID_BYTES
  {
    TrimIsTight(id);
    TrimFixed("");
    hide Trim, ByteLen;
  }

  /** What an accepted stream guarantees of each operation. */
  lemma AcceptedAt(lane: Lane, ops: seq<Operation>, at: nat)
    requires Acceptable(lane, ops) && at < |ops|
    ensures Trim(ops[at].id) != "" && Tight(Trim(ops[at].id)) && ByteLen(Trim(ops[at].id)) <= MAX_ID_BYTES
    ensures Valid(Operation(Trim(ops[at].id), ops[at].body))
    ensures ops[at].body.RecordEvidence? ==> ValidEvidence(ops[at].body.evidence)
  {
    hide DistinctIds, OffersOk, WorkOk, SchedulesOk, ReplyOk, ValidEvidence, ValidBody, Trim, Tight, ByteLen;
    NameOf(ops[at].id);
  }

  lemma OwnEvidenceProper(lane: Lane, ops: seq<Operation>)
    requires Folded(lane, ops, true).Some?
    ensures ProperEvidence(Own(lane, ops).evidence)
    ensures forall e :: e in Own(lane, ops).evidence ==> CleanEvidence(e) == None || CleanEvidence(e) == Some(e)
  {
    hide Folded, Own, Acceptable, Payloads, ValidEvidence, Trim, Tight, Valid, ByteLen, ValidEvidenceShape, CleanEvidence;
    OwnRows(lane, ops);
    forall e | e in Own(lane, ops).evidence
      ensures e.id != "" && Tight(e.id) && ValidEvidence(e) && (CleanEvidence(e) == None || CleanEvidence(e) == Some(e))
    {
      var at := PayloadSource(ops, EvidenceIn, e);
      AcceptedAt(lane, ops, at);
      EvidenceIdUnread(ops[at]);
      CleanEvidenceOnce(e);
    }
  }

  /** A carried ledger's evidence: proper rows, one to an id, as the sanitiser leaves them. */
  ghost predicate EvidenceKeeps(rows: seq<Evidence>) {
    ProperEvidence(rows) && DistinctKeys(rows, EvidenceId) && Fixed(rows, CleanEvidence)
  }

  /** The rows of a round that are read behind those put back. */
  function EvidenceHeard(lane: Lane, held: Ledger, ops: seq<Operation>): seq<Evidence>
    requires Folded(lane, ops, true).Some?
  {
    Cleaned(FirstRows(Own(lane, ops).evidence, Room(Sanitize.MAX_EVIDENCE, PutBack(CanonicalAll(ops), held).evidence)),
            CleanEvidence)
  }

  lemma HeardEvidenceProper(lane: Lane, held: Ledger, ops: seq<Operation>)
    requires Folded(lane, ops, true).Some?
    ensures ProperEvidence(EvidenceHeard(lane, held, ops)) && Fixed(EvidenceHeard(lane, held, ops), CleanEvidence)
  {
    hide Folded, Own, Tight, ValidEvidence, Restored, CanonicalAll, CleanEvidence, Cleaned;
    OwnEvidenceProper(lane, ops);
    var own := Own(lane, ops).evidence;
    var first := FirstRows(own, Room(Sanitize.MAX_EVIDENCE, PutBack(CanonicalAll(ops), held).evidence));
    assert forall e :: e in first ==> e in own;
    CleanedMembers(first, CleanEvidence);
  }

  lemma EvidenceKept(lane: Lane, held: Ledger, ops: seq<Operation>)
    requires Folded(lane, ops, true).Some? && EvidenceKeeps(held.evidence)
    ensures var kept := Kept(held, Shown(lane, held, ops)).evidence;
            && ByKey(kept, EvidenceId) == ByKey(held.evidence, EvidenceId) + ByKey(EvidenceHeard(lane, held, ops), EvidenceId)
            && EvidenceKeeps(kept)
  {
    hide Folded, Own, Tight, ValidEvidence, Restored, CanonicalAll, MergeAll, DistinctKeys, ByKey, CleanEvidence,
         Sanitized, EvidenceHeard;
    HeardEvidenceProper(lane, held, ops);
    BackFromHeld(CanonicalAll(ops), held);
    var back, heard := PutBack(CanonicalAll(ops), held).evidence, EvidenceHeard(lane, held, ops);
    assert Sanitized(back + Own(lane, ops).evidence, Sanitize.MAX_EVIDENCE, CleanEvidence)
        == FirstRows(back, Sanitize.MAX_EVIDENCE) + heard by {
      EvidenceRead(lane, held, ops);
    }
    KeptOverride(held.evidence, held.evidence, FirstRows(back, Sanitize.MAX_EVIDENCE), heard, EvidenceId, EvidenceId);
  }

  lemma EvidenceRead(lane: Lane, held: Ledger, ops: seq<Operation>)
    requires Folded(lane, ops, true).Some? && EvidenceKeeps(held.evidence)
    ensures var back := PutBack(CanonicalAll(ops), held).evidence;
            Sanitized(back + Own(lane, ops).evidence, Sanitize.MAX_EVIDENCE, CleanEvidence)
            == FirstRows(back, Sanitize.MAX_EVIDENCE) + EvidenceHeard(lane, held, ops)
  {
    hide Folded, Own, Restored, CanonicalAll, CleanEvidence, Cleaned, ProperEvidence, DistinctKeys;
    BackFromHeld(CanonicalAll(ops), held);
    SanitizedBehind(PutBack(CanonicalAll(ops), held).evidence, Own(lane, ops).evidence, Sanitize.MAX_EVIDENCE, CleanEvidence);
  }

  /** A carried ledger's coverage: one row to a layer, each layer in its one spelling. */
  ghost predicate CoverageKeeps(rows: seq<Coverage>) {
    DistinctKeys(rows, CoverageLayer) && Fixed(rows, CleanCoverage)
  }

  function CoverageHeard(lane: Lane, held: Ledger, ops: seq<Operation>): seq<Coverage>
    requires Folded(lane, ops, true).Some?
  {
    Cleaned(FirstRows(Own(lane, ops).coverage, Room(Sanitize.MAX_COVERAGE, PutBack(CanonicalAll(ops), held).coverage)),
            CleanCoverage)
  }

  /** Of rows the sanitiser has passed, the layer and its lower-cased form tell the
      same ones apart. */
  lemma OneSpelling(rows: seq<Coverage>)
    requires Fixed(rows, CleanCoverage)
    ensures Keyed(rows, CoverageLayer) && NamedAlike(rows, CoverageLayer, LayerName)
  {
    hide CleanCoverage, Trim, Lower;
    forall c | c in rows ensures c.layer != "" && LayerName(c) == c.layer {
      CleanCoverageTwice(c);
    }
  }

  lemma CleanedIsFixed(rows: seq<Coverage>)
    ensures Fixed(Cleaned(rows, CleanCoverage), CleanCoverage)
  {
    hide CleanCoverage, Cleaned, Trim, Lower;
    CleanedMembers(rows, CleanCoverage);
    forall c | c in Cleaned(rows, CleanCoverage) ensures CleanCoverage(c) == Some(c) {
      var from :| from in rows && CleanCoverage(from) == Some(c);
      CleanCoverageTwice(from);
    }
  }

  lemma CoverageKept(lane: Lane, held: Ledger, ops: seq<Operation>)
    requires Folded(lane, ops, true).Some? && CoverageKeeps(held.coverage)
    ensures var kept := Kept(held, Shown(lane, held, ops)).coverage;
            && ByKey(kept, LayerName) == ByKey(held.coverage, LayerName) + ByKey(CoverageHeard(lane, held, ops), LayerName)
            && CoverageKeeps(kept)
  {
    hide Folded, Own, CoverageIdentity, Restored, CanonicalAll, MergeAll, DistinctKeys, ByKey, NamedAlike, CleanCoverage,
         Cleaned;
    BackFromHeld(CanonicalAll(ops), held);
    var back, own, limit := PutBack(CanonicalAll(ops), held).coverage, Own(lane, ops).coverage, Sanitize.MAX_COVERAGE;
    SanitizedBehind(back, own, limit, CleanCoverage);
    CleanedIsFixed(FirstRows(own, Room(limit, back)));
    OneSpelling(held.coverage + CoverageHeard(lane, held, ops));
    KeptOverride(held.coverage, held.coverage, FirstRows(back, limit), CoverageHeard(lane, held, ops), CoverageLayer, LayerName);
  }

  /** Every finding operation of the round has a key that, trimmed, is its own
      canonical form: an id corrected twice with white space between has none. */
  ghost predicate WellKeyed(ops: seq<Operation>) {
    forall op :: op in ops && op.body.RecordFinding? ==> OwnKey(Trim(FindingKey(op.id)))
  }

  /** No finding's key is blank. */
  ghost predicate Keys(rows: seq<Finding>) {
    forall f :: f in rows ==> FindingName(f) != ""
  }

  /** Keys that are their own canonical form once trimmed. */
  ghost predicate OwnKeys(rows: seq<Finding>) {
    forall f :: f in rows ==> OwnKey(Trim(f.key)) && ByteLen(f.key) <= MAX_ID_BYTES
  }

  lemma NotEmpty(key: string)
    requires OwnKey(Trim(key))
    ensures key != "" && Trim(key) != ""
  {
    TrimFixed("");
    hide Trim;
  }

  lemma OwnKeysNamed(rows: seq<Finding>)
    requires OwnKeys(rows)
    ensures Keys(rows)
  {
    hide OwnKey, Trim, ByteLen;
    forall f | f in rows ensures FindingName(f) != "" { NotEmpty(f.key); }
  }

  lemma ProperKeys(rows: seq<Finding>)
    requires ProperFindings(rows)
    ensures Keys(rows) && OwnKeys(rows) && forall f :: f in rows ==> FindingName(f) == f.key
  {
    hide Trim, FindingKey, ByteLen, Tight;
    forall f | f in rows ensures Trim(f.key) == f.key { TrimFixed(f.key); }
  }

  lemma OwnFindingsKeyed(lane: Lane, ops: seq<Operation>)
    requires Folded(lane, ops, true).Some? && WellKeyed(ops)
    ensures OwnKeys(Own(lane, ops).findings)
  {
    hide Folded, Own, Acceptable, Payloads, Trim, Valid, OwnKey, ByteLen, FindingKey, Tight;
    OwnRows(lane, ops);
    forall f | f in Own(lane, ops).findings ensures OwnKey(Trim(f.key)) && ByteLen(f.key) <= MAX_ID_BYTES {
      var at := PayloadSource(ops, FindingIn, f);
      AcceptedAt(lane, ops, at);
      TrimmedKey(ops[at].id);
      KeyOfKey(ops[at].id);
    }
  }

  lemma IdentityIsKey(f: Finding)
    requires FindingName(f) != ""
    ensures FindingIdentity(f) == "key:" + FindingName(f)
  {
    hide Trim, Lower;
  }

  lemma KeysAlike(rows: seq<Finding>)
    requires Keys(rows)
    ensures Keyed(rows, FindingIdentity) && NamedAlike(rows, FindingIdentity, FindingName)
  {
    hide FindingIdentity, FindingName;
    forall f | f in rows ensures FindingIdentity(f) == "key:" + FindingName(f) && FindingIdentity(f)[4..] == FindingName(f) {
      IdentityIsKey(f);
    }
  }

  lemma SameKeys(prior: Finding, current: Finding)
    requires FindingName(prior) != "" && FindingName(current) != ""
    ensures SameFinding(prior, current) <==> FindingName(prior) == FindingName(current)
  {
    hide Trim, FindingKey, Lower;
  }

  lemma {:induction false} UnansweredRows(prior: seq<Finding>, current: seq<Finding>)
    requires Keys(prior) && Keys(current)
    ensures forall f :: f in Unanswered(prior, current) ==> f in prior
    ensures forall f :: f in prior ==> f in Unanswered(prior, current) || NameIn(current, FindingName, FindingName(f))
  {
    hide SameFinding, FindingName;
    if prior != [] {
      var front, last := prior[..|prior| - 1], prior[|prior| - 1];
      assert forall f :: f in prior <==> f in front || f == last;
      UnansweredRows(front, current);
      forall f | f in current ensures SameFinding(last, f) <==> FindingName(last) == FindingName(f) {
        SameKeys(last, f);
      }
    }
  }

  lemma {:induction false} ByKeyErased(rows: seq<Finding>)
    ensures ByKey(Erased(rows), FindingName)
         == map k | k in ByKey(rows, FindingName) :: Nameless(ByKey(rows, FindingName)[k])
  {
    if rows != [] {
      ByKeyErased(rows[..|rows| - 1]);
      assert Erased(rows)[..|rows| - 1] == Erased(rows[..|rows| - 1]);
    }
  }

  /** CarryFindings overrides by trimmed key, as long as no key is blank. */
  lemma FindingsMerged(held: seq<Finding>, current: seq<Finding>)
    requires Keys(held) && DistinctKeys(held, FindingIdentity) && Keys(current)
    ensures var kept := CarriedFindings(held, current);
            && ByKey(kept, FindingName) == ByKey(held, FindingName) + ByKey(current, FindingName)
            && DistinctKeys(kept, FindingIdentity)
            && (forall f :: f in kept ==> f in held || f in current)
  {
    hide MergeAll, DistinctKeys, ByKey, NamedAlike, FindingIdentity, FindingName;
    assert Keys(held + current);
    KeysAlike(held + current);
    UnansweredRows(held, current);
    KeptOverride(held, Unanswered(held, current), [], current, FindingIdentity, FindingName);
    assert [] + current == current;
  }

  /** A carried ledger's findings: as the sanitiser leaves them, without operation ids,
      no blank key, one row to a key. */
  ghost predicate FindingsKeep(rows: seq<Finding>) {
    && Keys(rows) && DistinctKeys(rows, FindingIdentity) && Fixed(rows, CleanFinding)
    && forall f :: f in rows ==> f.id == ""
  }

  /** What the ledger reads of a round: the findings put back, then the round's own
      within the limit. */
  function FindingsTold(lane: Lane, held: Ledger, ops: seq<Operation>): seq<Finding>
    requires Folded(lane, ops, true).Some?
  {
    var back := PutBack(CanonicalAll(ops), held).findings;
    Cleaned(FirstRows(back, Sanitize.MAX_FINDINGS), CleanFinding)
    + Cleaned(FirstRows(Own(lane, ops).findings, Room(Sanitize.MAX_FINDINGS, back)), CleanFinding)
  }

  lemma FindingsRead(lane: Lane, held: Ledger, ops: seq<Operation>)
    requires Folded(lane, ops, true).Some?
    ensures Sanitized(Shown(lane, held, ops).findings, Sanitize.MAX_FINDINGS, CleanFinding) == FindingsTold(lane, held, ops)
  {
    hide Folded, Own, Restored, CanonicalAll, CleanFinding, Cleaned;
    var back, own, limit := PutBack(CanonicalAll(ops), held).findings, Own(lane, ops).findings, Sanitize.MAX_FINDINGS;
    assert FirstRows(back + own, limit) == FirstRows(back, limit) + FirstRows(own, Room(limit, back));
    CleanedConcat(FirstRows(back, limit), FirstRows(own, Room(limit, back)), CleanFinding);
  }

  lemma KeyCleaned(f: Finding)
    ensures CleanFinding(f).Some? ==> CleanFinding(f).value.key == Bounded(f.key, 120)
  {
    hide Bounded, Lower;
  }

  lemma NameCleaned(f: Finding)
    requires FindingName(f) != "" && CleanFinding(f).Some?
    ensures FindingName(CleanFinding(f).value) != ""
  {
    hide Trim, Cut, IsSpace, CleanFinding;
    var t := Trim(f.key);
    KeyCleaned(f);
    TrimTwice(f.key);
    TrimIsTight(f.key);
    CutBegins(t, 120);
    CutTight(t, 120);
    TrimFixed(Cut(t, 120));
  }

  lemma CleanedNamed(rows: seq<Finding>)
    requires Keys(rows)
    ensures Keys(Cleaned(rows, CleanFinding))
  {
    hide CleanFinding, Cleaned, FindingName;
    CleanedMembers(rows, CleanFinding);
    forall f | f in Cleaned(rows, CleanFinding) ensures FindingName(f) != "" {
      var from :| from in rows && CleanFinding(from) == Some(f);
      NameCleaned(from);
    }
  }

  /** A canonical key comes through the sanitiser trimmed. */
  lemma CleanedKeys(rows: seq<Finding>)
    requires OwnKeys(rows)
    ensures forall f :: f in Cleaned(rows, CleanFinding) ==> OwnKey(f.key) && ByteLen(f.key) <= MAX_ID_BYTES
  {
    hide CleanFinding, Cleaned, FindingKey, Trim, Tight, ByteLen;
    CleanedMembers(rows, CleanFinding);
    forall f | f in Cleaned(rows, CleanFinding) ensures OwnKey(f.key) && ByteLen(f.key) <= MAX_ID_BYTES {
      var from :| from in rows && CleanFinding(from) == Some(f);
      ByteLenTrim(from.key);
      KeyCleaned(from);
    }
  }

  ghost predicate RoundNamed(lane: Lane, held: Ledger, ops: seq<Operation>)
    requires Folded(lane, ops, true).Some?
  {
    Keys(Own(lane, ops).findings) && Keys(PutBack(CanonicalAll(ops), held).findings)
  }

  lemma ToldNamed(lane: Lane, held: Ledger, ops: seq<Operation>)
    requires Folded(lane, ops, true).Some? && RoundNamed(lane, held, ops)
    ensures Keys(FindingsTold(lane, held, ops))
  {
    hide Folded, Own, Restored, CanonicalAll, CleanFinding, Cleaned, FindingName;
    var back := PutBack(CanonicalAll(ops), held).findings;
    var first, rest := FirstRows(back, Sanitize.MAX_FINDINGS), FirstRows(Own(lane, ops).findings, Room(Sanitize.MAX_FINDINGS, back));
    assert forall f :: f in first ==> f in back;
    assert forall f :: f in rest ==> f in Own(lane, ops).findings;
    CleanedNamed(first);
    CleanedNamed(rest);
  }

  lemma FindingsKept(lane: Lane, held: Ledger, ops: seq<Operation>)
    requires Folded(lane, ops, true).Some? && FindingsKeep(held.findings) && RoundNamed(lane, held, ops)
    ensures var kept := Kept(held, Shown(lane, held, ops)).findings;
            && ByKey(kept, FindingName)
               == ByKey(held.findings, FindingName) + ByKey(Erased(FindingsTold(lane, held, ops)), FindingName)
            && FindingsKeep(kept)
            && (forall f :: f in kept ==> f in held.findings || f in Erased(FindingsTold(lane, held, ops)))
  {
    hide Folded, Own, PutBack, CanonicalAll, CarriedFindings, DistinctKeys, ByKey, Erased, FindingIdentity, CleanFinding,
         Cleaned, FindingName, FindingsTold, Shown, Sanitized, RoundNamed;
    var told := FindingsTold(lane, held, ops);
    FindingsRead(lane, held, ops);
    ToldNamed(lane, held, ops);
    FindingsMerged(held.findings, told);
    ToldFixed(lane, held, ops);
    var merged := CarriedFindings(held.findings, told);
    ByKeyErased(merged);
    ByKeyErased(held.findings);
    ByKeyErased(told);
    AlreadyErased(held.findings);
    ErasedKeeps(merged);
    ErasedMembers(merged, held.findings, told);
  }

  lemma FindingsFixed(rows: seq<Finding>)
    ensures Fixed(Cleaned(rows, CleanFinding), CleanFinding)
  {
    hide CleanFinding, Cleaned;
    CleanedMembers(rows, CleanFinding);
    forall f | f in Cleaned(rows, CleanFinding) ensures CleanFinding(f) == Some(f) {
      var from :| from in rows && CleanFinding(from) == Some(f);
      CleanFindingTwice(from);
    }
  }

  lemma ToldFixed(lane: Lane, held: Ledger, ops: seq<Operation>)
    requires Folded(lane, ops, true).Some?
    ensures Fixed(FindingsTold(lane, held, ops), CleanFinding)
  {
    hide Folded, Own, PutBack, CanonicalAll, CleanFinding, Cleaned;
    var back := PutBack(CanonicalAll(ops), held).findings;
    FindingsFixed(FirstRows(back, Sanitize.MAX_FINDINGS));
    FindingsFixed(FirstRows(Own(lane, ops).findings, Room(Sanitize.MAX_FINDINGS, back)));
  }

  lemma ErasedMembers(rows: seq<Finding>, held: seq<Finding>, told: seq<Finding>)
    requires Erased(held) == held && forall f :: f in rows ==> f in held || f in told
    ensures forall f :: f in Erased(rows) ==> f in held || f in Erased(told)
  {
    forall f | f in Erased(rows) ensures f in held || f in Erased(told) {
      var i :| 0 <= i < |rows| && f == Erased(rows)[i];
      assert rows[i] in rows;
      if rows[i] in held {
        var j :| 0 <= j < |held| && held[j] == rows[i];
        assert Erased(held)[j] == f;
      } else {
        var j :| 0 <= j < |told| && told[j] == rows[i];
        assert Erased(told)[j] == f;
      }
    }
  }

  lemma AlreadyErased(rows: seq<Finding>)
    requires forall f :: f in rows ==> f.id == ""
    ensures Erased(rows) == rows
  {
    forall i | 0 <= i < |rows| ensures Nameless(rows[i]) == rows[i] {
      assert rows[i] in rows;
    }
  }

  lemma ErasedKeeps(rows: seq<Finding>)
    requires Keys(rows) && DistinctKeys(rows, FindingIdentity) && Fixed(rows, CleanFinding)
    ensures FindingsKeep(Erased(rows))
  {
    hide Trim, FindingIdentity, CleanFinding;
    assert forall i :: 0 <= i < |rows| ==> rows[i] in rows;
    var erased := Erased(rows);
    forall i | 0 <= i < |rows| ensures erased[i].id == "" && erased[i].key == rows[i].key
                                    && FindingIdentity(erased[i]) == FindingIdentity(rows[i])
                                    && CleanFinding(erased[i]) == Some(erased[i]) {
      IdentityOfNameless(rows[i]);
      NamelessCleaned(rows[i]);
    }
    hide Erased;
  }

  lemma NamelessCleaned(f: Finding)
    ensures CleanFinding(f) == Some(f) ==> CleanFinding(Nameless(f)) == Some(Nameless(f))
  {
    hide Bounded, Lower;
  }

  lemma IdentityOfNameless(f: Finding)
    ensures FindingIdentity(Nameless(f)) == FindingIdentity(f)
  {
    hide Trim, Lower;
  }

  // ---- What the readers of a round see ----

  lemma SentEvidenceIsOwn(lane: Lane, ops: seq<Operation>, id: string)
    requires Folded(lane, ops, true).Some? && Tight(id)
    requires id in SentEvidence(CanonicalAll(ops))
    ensures NameIn(Own(lane, ops).evidence, EvidenceId, id)
  {
    hide Folded, Trim, Tight, Payloads, Own, Acceptable, FindingKey;
    OwnRows(lane, ops);
    var canon := CanonicalAll(ops);
    var i :| 0 <= i < |canon| && id in EvidenceNames(canon[i]);
    TrimFixed(id);
    assert ops[i].body.RecordEvidence? && Trim(ops[i].id) == id;
    PayloadMember(ops, EvidenceIn, ops[i], ops[i].body.evidence.(id := Trim(ops[i].id)));
  }

  lemma LayerSource(op: Operation, layer: string) returns (row: Coverage)
    requires layer in LayerNames(op)
    ensures row in CoverageIn(op) && LayerName(row) == layer
  {
    hide CoverageIdentity;
    match op.body
    case RecordCoverage(c) => row := c;
    case CompleteEpisode(c) =>
      var i :| 0 <= i < |c.coverage| && CoverageIdentity(c.coverage[i].layer) == layer;
      row := c.coverage[i];
    case _ => assert false;
  }

  lemma SentLayerIsOwn(lane: Lane, ops: seq<Operation>, layer: string)
    requires Folded(lane, ops, true).Some?
    requires layer in SentCoverage(CanonicalAll(ops))
    ensures NameIn(Own(lane, ops).coverage, LayerName, layer)
  {
    hide Folded, Trim, Payloads, Own, Acceptable, FindingKey, CoverageIdentity;
    OwnRows(lane, ops);
    var canon := CanonicalAll(ops);
    var i :| 0 <= i < |canon| && layer in LayerNames(canon[i]);
    assert LayerNames(canon[i]) == LayerNames(ops[i]);
    var row := LayerSource(ops[i], layer);
    PayloadMember(ops, CoverageIn, ops[i], row);
  }

  lemma SentFindingIsOwn(lane: Lane, ops: seq<Operation>, row: Finding)
    requires Folded(lane, ops, true).Some? && WellKeyed(ops) && OwnKey(Trim(row.key))
    requires Answered(row, SentFindings(CanonicalAll(ops)))
    ensures NameIn(Own(lane, ops).findings, FindingName, FindingName(row))
  {
    hide Folded, Trim, Payloads, Own, Acceptable, FindingKey, OwnKey, SameFinding;
    OwnRows(lane, ops);
    var canon := CanonicalAll(ops);
    var sent := SentFindings(canon);
    var k :| 0 <= k < |sent| && SameFinding(row, sent[k]);
    var i := PayloadSource(canon, FindingNames, sent[k]);
    assert ops[i] in ops && ops[i].body.RecordFinding?;
    var key := FindingKey(ops[i].id);
    NotEmpty(key);
    NotEmpty(row.key);
    assert sent[k].key == key;
    SameKeys(row, sent[k]);
    TrimmedKey(ops[i].id);
    PayloadMember(ops, FindingIn, ops[i], FindingIn(ops[i])[0]);
  }

  lemma {:induction false} MissingEvidenceRow(rows: seq<Evidence>, sent: set<string>, e: Evidence)
    requires e in rows && e.id != "" && e.id !in sent
    ensures EvidenceOp(e) in MissingEvidence(rows, sent)
    decreases |rows|
  {
    var front, row := rows[..|rows| - 1], rows[|rows| - 1];
    if e != row {
      assert e in front;
      MissingEvidenceRow(front, sent, e);
    }
  }

  lemma {:induction false} MissingCoverageRow(rows: seq<Coverage>, sent: set<string>, c: Coverage) returns (op: Operation)
    requires c in rows && LayerName(c) !in sent
    ensures op in MissingCoverage(rows, sent) && op.body == RecordCoverage(c)
    decreases |rows|
  {
    hide CoverageIdentity, CarriedOperationId;
    var front, row := rows[..|rows| - 1], rows[|rows| - 1];
    if c != row {
      assert c in front;
      op := MissingCoverageRow(front, sent, c);
    } else {
      op := CoverageOp(row, |rows| - 1);
    }
  }

  lemma {:induction false} MissingFindingRow(rows: seq<Finding>, sent: seq<Finding>, f: Finding) returns (op: Operation)
    requires f in rows && f.id == "" && OwnKey(f.key) && !Answered(f, sent)
    ensures op in MissingFindings(rows, sent) && op.body == RecordFinding(f)
    decreases |rows|
  {
    hide Answered, Tight;
    var front, row := rows[..|rows| - 1], rows[|rows| - 1];
    if f != row {
      assert f in front;
      op := MissingFindingRow(front, sent, f);
    } else {
      assert f.(key := f.key) == f;
      op := FindingOp(FindingId(f), f);
      hide FindingKey;
    }
  }

  /** There is room for every row the round left out, under a name of its own. */
  ghost predicate RoomForAll(ops: seq<Operation>, held: Ledger) {
    Clear(Opening(ops), Missing(ops, held.evidence, held.coverage, held.findings))
  }

  lemma AllComeBack(ops: seq<Operation>, held: Ledger)
    requires ops != [] && |ops| <= MAX_OPERATIONS && RoomForAll(ops, held)
    ensures var r := PutBack(ops, held);
            && r.operations == Missing(ops, held.evidence, held.coverage, held.findings)
            && r.evidence == Payloads(r.operations, EvidenceRow)
            && r.coverage == Payloads(r.operations, CoverageRow)
            && r.findings == Payloads(r.operations, FindingRow)
            && NamesFree(ops, held)
  {
    hide Restored, Missing, Payloads, UsedIds, Checked;
    EverythingMissingReturns(ops, held.evidence, held.coverage, held.findings);
    RestoredSound(ops, held.evidence, held.coverage, held.findings);
  }

  /** While there is room, the evidence every reader sees is everything held,
      overridden by what this round sent. */
  lemma EvidenceShown(lane: Lane, held: Ledger, ops: seq<Operation>)
    requires Folded(lane, ops, true).Some? && RoomForAll(CanonicalAll(ops), held)
    requires ProperEvidence(held.evidence) && DistinctKeys(held.evidence, EvidenceId)
    ensures ByKey(Shown(lane, held, ops).evidence, EvidenceId)
         == ByKey(held.evidence, EvidenceId) + ByKey(Own(lane, ops).evidence, EvidenceId)
  {
    hide Folded, Own, Acceptable, Restored, RoomForAll, NamesFree, MissingEvidence, MissingCoverage, MissingFindings,
         Payloads, Tight, ValidEvidence, ByKey, DistinctKeys, NameIn, SentEvidence, SentCoverage, SentFindings;
    OwnRows(lane, ops);
    var canon := CanonicalAll(ops);
    AllComeBack(canon, held);
    BackFromHeld(canon, held);
    var r := PutBack(canon, held);
    forall e | e in held.evidence ensures e in r.evidence || NameIn(Own(lane, ops).evidence, EvidenceId, EvidenceId(e)) {
      if e.id in SentEvidence(canon) {
        SentEvidenceIsOwn(lane, ops, e.id);
      } else {
        MissingEvidenceRow(held.evidence, SentEvidence(canon), e);
        assert EvidenceOp(e) in r.operations;
        PayloadMember(r.operations, EvidenceRow, EvidenceOp(e), e);
      }
    }
    Override(held.evidence, r.evidence, Own(lane, ops).evidence, EvidenceId);
  }

  lemma CoverageShown(lane: Lane, held: Ledger, ops: seq<Operation>)
    requires Folded(lane, ops, true).Some? && RoomForAll(CanonicalAll(ops), held)
    requires DistinctKeys(held.coverage, LayerName)
    ensures ByKey(Shown(lane, held, ops).coverage, LayerName)
         == ByKey(held.coverage, LayerName) + ByKey(Own(lane, ops).coverage, LayerName)
  {
    hide Folded, Own, Acceptable, Restored, RoomForAll, NamesFree, MissingEvidence, MissingCoverage, MissingFindings,
         Payloads, CoverageIdentity, ByKey, DistinctKeys, NameIn, SentEvidence, SentCoverage, SentFindings;
    OwnRows(lane, ops);
    var canon := CanonicalAll(ops);
    AllComeBack(canon, held);
    BackFromHeld(canon, held);
    var r := PutBack(canon, held);
    forall c | c in held.coverage ensures c in r.coverage || NameIn(Own(lane, ops).coverage, LayerName, LayerName(c)) {
      if LayerName(c) in SentCoverage(canon) {
        SentLayerIsOwn(lane, ops, LayerName(c));
      } else {
        var op := MissingCoverageRow(held.coverage, SentCoverage(canon), c);
        assert op in r.operations;
        PayloadMember(r.operations, CoverageRow, op, c);
      }
    }
    Override(held.coverage, r.coverage, Own(lane, ops).coverage, LayerName);
  }

  lemma FindingsShown(lane: Lane, held: Ledger, ops: seq<Operation>)
    requires Folded(lane, ops, true).Some? && RoomForAll(CanonicalAll(ops), held) && WellKeyed(ops)
    requires ProperFindings(held.findings) && DistinctKeys(held.findings, FindingName)
    ensures ByKey(Erased(Shown(lane, held, ops).findings), FindingName)
         == ByKey(held.findings, FindingName) + ByKey(Erased(Own(lane, ops).findings), FindingName)
  {
    hide Folded, Own, Acceptable, Restored, RoomForAll, NamesFree, MissingEvidence, MissingCoverage, MissingFindings,
         Payloads, OwnKey, ByteLen, ByKey, DistinctKeys, NameIn, SentEvidence, SentCoverage, SentFindings, Answered,
         Erased, CanonicalAll;
    OwnRows(lane, ops);
    var canon := CanonicalAll(ops);
    AllComeBack(canon, held);
    FindingsFromHeld(canon, held);
    ProperKeys(held.findings);
    var r, own := PutBack(canon, held), Own(lane, ops).findings;
    forall f | f in held.findings ensures f in r.findings || NameIn(own, FindingName, FindingName(f)) {
      if Answered(f, SentFindings(canon)) {
        SentFindingIsOwn(lane, ops, f);
      } else {
        var op := MissingFindingRow(held.findings, SentFindings(canon), f);
        assert op in r.operations;
        PayloadMember(r.operations, FindingRow, op, f);
      }
    }
    Override(held.findings, r.findings, own, FindingName);
    ByKeyErased(r.findings + own);
    ByKeyErased(held.findings);
    ByKeyErased(own);
    AlreadyErased(held.findings);
  }
}
