/** Restoring a second time: exactly when a row comes back again; and the streams
    whose spliced form the fold refuses. */
module Again {
  import opened Options
  import opened Text
  import opened Investigation
  import opened Fold
  import opened FoldSpec
  import opened Carry
  import opened PartialRound
  import opened Splice
  import opened Restoration
  import opened Refold
  import opened Sanitize
  import opened Rounds

  /** A later state: no name free that was taken, no more room than there was. */
  ghost predicate Later(s: Restoring, z: Restoring) {
    s.used <= z.used && z.room <= s.room
  }

  ghost predicate Holds(s: Restoring, put: seq<Operation>) {
    forall op :: op in s.records.operations ==> op in put
  }

  /** An operation offered once never fits later. */
  lemma OfferedOnce(s: Restoring, op: Operation, z: Restoring, put: seq<Operation>)
    requires Later(Put(s, op), z) && Holds(Put(s, op), put)
    ensures !Fits(z, op) && Later(s, z) && Holds(s, put)
    ensures Fits(s, op) ==> op in put
  {
    hide Valid;
    var t := Put(s, op);
    assert Fits(s, op) ==> op in t.records.operations;
  }

  lemma {:induction false} EvidenceOffered(
    s: Restoring, rows: seq<Evidence>, sent: set<string>, z: Restoring, put: seq<Operation>)
    requires Later(AllEvidence(s, rows, sent), z) && Holds(AllEvidence(s, rows, sent), put)
    ensures Later(s, z) && Holds(s, put)
    ensures forall i :: 0 <= i < |rows| ==> rows[i].id == "" || rows[i].id in sent || !Fits(z, EvidenceOp(rows[i]))
    decreases |rows|
  {
    hide Fits, Put, Later, Holds;
    if rows != [] {
      var front, row := rows[..|rows| - 1], rows[|rows| - 1];
      if row.id != "" && row.id !in sent {
        OfferedOnce(AllEvidence(s, front, sent), EvidenceOp(row), z, put);
      }
      EvidenceOffered(s, front, sent, z, put);
    }
  }

  lemma {:induction false} CoverageOffered(
    s: Restoring, rows: seq<Coverage>, sent: set<string>, z: Restoring, put: seq<Operation>)
    requires Later(AllCoverage(s, rows, sent), z) && Holds(AllCoverage(s, rows, sent), put)
    ensures Later(s, z) && Holds(s, put)
    ensures forall i :: 0 <= i < |rows| ==> LayerName(rows[i]) in sent || !Fits(z, CoverageOp(rows[i], i))
    decreases |rows|
  {
    hide Fits, Put, Later, Holds, CoverageIdentity, CoverageOp;
    if rows != [] {
      var front, row := rows[..|rows| - 1], rows[|rows| - 1];
      if LayerName(row) !in sent {
        OfferedOnce(AllCoverage(s, front, sent), CoverageOp(row, |rows| - 1), z, put);
      }
      CoverageOffered(s, front, sent, z, put);
    }
  }

  lemma {:induction false} NoEvidenceAgain(z: Restoring, rows: seq<Evidence>, sent: set<string>)
    requires forall i :: 0 <= i < |rows| ==> rows[i].id == "" || rows[i].id in sent || !Fits(z, EvidenceOp(rows[i]))
    ensures AllEvidence(z, rows, sent) == z
    decreases |rows|
  {
    if rows != [] {
      NoEvidenceAgain(z, rows[..|rows| - 1], sent);
      hide Fits, EvidenceOp;
    }
  }

  lemma {:induction false} NoCoverageAgain(z: Restoring, rows: seq<Coverage>, sent: set<string>)
    requires forall i :: 0 <= i < |rows| ==> LayerName(rows[i]) in sent || !Fits(z, CoverageOp(rows[i], i))
    ensures AllCoverage(z, rows, sent) == z
    decreases |rows|
  {
    if rows != [] {
      hide Fits, CoverageOp, CoverageIdentity;
      var front := rows[..|rows| - 1];
      assert forall i :: 0 <= i < |front| ==> front[i] == rows[i];
      NoCoverageAgain(z, front, sent);
    }
  }

  /** The row is answered by now, or the operation it would make does not fit. */
  ghost predicate Done(z: Restoring, row: Finding, index: nat, sent: seq<Finding>) {
    Answered(row, sent) || !Fits(z, FindingOp(RestoredFindingId(row, index, z.used), row))
  }

  ghost predicate AllDone(z: Restoring, rows: seq<Finding>, sent: seq<Finding>) {
    forall i :: 0 <= i < |rows| ==> Done(z, rows[i], i, sent)
  }

  lemma DoneSnoc(z: Restoring, rows: seq<Finding>, sent: seq<Finding>)
    requires rows != []
    ensures AllDone(z, rows, sent) <==>
              AllDone(z, rows[..|rows| - 1], sent) && Done(z, rows[|rows| - 1], |rows| - 1, sent)
  {
    hide Done;
    var front := rows[..|rows| - 1];
    assert forall i :: 0 <= i < |front| ==> front[i] == rows[i];
  }

  /** Nothing is added exactly when every row is done with. */
  lemma {:induction false} FindingsAgain(z: Restoring, rows: seq<Finding>, sent: seq<Finding>)
    ensures AllDone(z, rows, sent) ==> AllFindings(z, rows, sent) == z
    ensures |AllFindings(z, rows, sent).records.operations| >= |z.records.operations|
    ensures !AllDone(z, rows, sent) ==>
              |AllFindings(z, rows, sent).records.operations| > |z.records.operations|
    decreases |rows|
  {
    hide RestoreFinding, Done, AllDone;
    if rows != [] {
      DoneSnoc(z, rows, sent);
      FindingsAgain(z, rows[..|rows| - 1], sent);
      DoneOrAdded(z, rows[|rows| - 1], |rows| - 1, sent);
      PutsNoLess(AllFindings(z, rows[..|rows| - 1], sent), rows[|rows| - 1], |rows| - 1, sent);
    } else {
      NoneDone(z, sent);
    }
  }

  lemma NoneDone(z: Restoring, sent: seq<Finding>)
    ensures AllDone(z, [], sent)
  {
  }

  lemma PutsNoLess(s: Restoring, row: Finding, index: nat, sent: seq<Finding>)
    ensures |RestoreFinding(s, row, index, sent).records.operations| >= |s.records.operations|
  {
    hide Fits, FindingOp, Answered, RestoredFindingId;
  }

  lemma DoneOrAdded(z: Restoring, row: Finding, index: nat, sent: seq<Finding>)
    ensures Done(z, row, index, sent) ==> RestoreFinding(z, row, index, sent) == z
    ensures !Done(z, row, index, sent) ==>
              |RestoreFinding(z, row, index, sent).records.operations| > |z.records.operations|
  {
    hide Valid, FindingOp, Answered, RestoredFindingId;
  }

  lemma SameRowSameCheck(row: Finding, a: string, b: string)
    requires Valid(FindingOp(b, row)) && ValidId(a)
    ensures Valid(FindingOp(a, row))
  {
    FindingKeyUnread(FindingOp(a, row));
    hide ValidId, FindingKey, Trim, Lower, ByteLen;
    assert ValidFinding(row.(key := FindingKey(b))) == ValidFinding(row.(key := FindingKey(a)));
  }

  lemma AnsweredBy(row: Finding, current: seq<Finding>, f: Finding)
    requires f in current && SameFinding(row, f)
    ensures Answered(row, current)
  {
    hide SameFinding;
    var j :| 0 <= j < |current| && current[j] == f;
  }

  /** The made-up identifier of a finding whose own cannot be used. */
  function SpareId(row: Finding, index: nat): string {
    CarriedOperationId("carried-finding-", row.what, index)
  }

  /** The first restoration filed the finding under its own name, no finding of the
      round or of the restoration answers it under the key that name gives, and there
      is still room for it under its made-up one. */
  ghost predicate ComesAgain(ops: seq<Operation>, put: seq<Operation>, row: Finding, index: nat) {
    && FindingOp(FindingId(row), row) in put
    && !Answered(row, SentFindings(ops))
    && (forall op, f :: op in put && f in FindingNames(op) ==> !SameFinding(row, f))
    && |ops| + |put| < MAX_OPERATIONS
    && SpareId(row, index) !in UsedIds(ops) + UsedIds(put)
    && Valid(FindingOp(SpareId(row, index), row))
  }

  /** The state a second restoration begins in, seen from a state the first went through. */
  ghost predicate After(ops: seq<Operation>, put: seq<Operation>, s: Restoring, z: Restoring) {
    && UsedIds(ops) <= s.used && z.used == UsedIds(ops) + UsedIds(put)
    && z.room == MAX_OPERATIONS - |ops| - |put|
    && (forall op :: op in put ==> Valid(op))
  }

  lemma NamedOp(ops: seq<Operation>, id: string) returns (op: Operation)
    requires id in UsedIds(ops)
    ensures op in ops && op.id == id
  {
    var i :| 0 <= i < |ops| && ops[i].id == id;
    op := ops[i];
  }

  lemma NameUsed(ops: seq<Operation>, op: Operation)
    requires op in ops
    ensures op.id in UsedIds(ops)
  {
    var i :| 0 <= i < |ops| && ops[i] == op;
  }

  lemma AnsweredIn(row: Finding, sent: seq<Finding>)
    ensures Answered(row, sent) <==> exists f :: f in sent && SameFinding(row, f)
  {
    hide SameFinding;
    if Answered(row, sent) {
      var i :| 0 <= i < |sent| && SameFinding(row, sent[i]);
      assert sent[i] in sent;
    }
    if f :| f in sent && SameFinding(row, f) { AnsweredBy(row, sent, f); }
  }

  /** What the completed stream has sent. */
  ghost predicate SentBoth(sent: seq<Finding>, put: seq<Operation>, more: seq<Finding>) {
    forall f :: f in more <==> f in sent || exists op :: op in put && f in FindingNames(op)
  }

  lemma AnsweredByBoth(row: Finding, sent: seq<Finding>, put: seq<Operation>, more: seq<Finding>)
    requires SentBoth(sent, put, more)
    ensures Answered(row, more) <==>
              Answered(row, sent) || exists op, f :: op in put && f in FindingNames(op) && SameFinding(row, f)
  {
    hide SameFinding, FindingNames, Answered;
    AnsweredIn(row, sent);
    AnsweredIn(row, more);
  }

  /** A finding the second pass would add is one the first filed under its own name. */
  lemma WasFiled(s: Restoring, row: Finding, index: nat, z: Restoring, ops: seq<Operation>, put: seq<Operation>)
    requires After(ops, put, s, z)
    requires var op := FindingOp(RestoredFindingId(row, index, s.used), row);
             Later(Put(s, op), z) && Holds(Put(s, op), put)
    requires Fits(z, FindingOp(RestoredFindingId(row, index, z.used), row))
    ensures FindingOp(FindingId(row), row) in put
    ensures RestoredFindingId(row, index, z.used) == SpareId(row, index)
  {
    hide Valid, FindingKey, ByteLen, CarriedOperationId, UsedIds, FindingId, Put;
    var one, two := RestoredFindingId(row, index, s.used), RestoredFindingId(row, index, z.used);
    OfferedOnce(s, FindingOp(one, row), z, put);
    assert one != two;
    var own := FindingId(row);
    if FindingOp(own, row) !in put {
      assert own in z.used && own !in s.used;
      var other := NamedOp(put, own);
      ValidNamed(other);
      SameRowSameCheck(row, own, two);
      assert false;
    }
  }

  lemma ValidNamed(op: Operation)
    requires Valid(op)
    ensures ValidId(op.id)
  {
    hide ValidId, ValidBody;
  }

  /** One row of the first pass, seen from the second. */
  lemma FindingDone(s: Restoring, row: Finding, index: nat, z: Restoring, ops: seq<Operation>, put: seq<Operation>,
                    more: seq<Finding>)
    requires After(ops, put, s, z) && SentBoth(SentFindings(ops), put, more)
    requires var t := RestoreFinding(s, row, index, SentFindings(ops)); Later(t, z) && Holds(t, put)
    ensures Later(s, z) && Holds(s, put)
    ensures Done(z, row, index, more) <==> !ComesAgain(ops, put, row, index)
  {
    hide Valid, SameFinding, FindingKey, ByteLen, CarriedOperationId, UsedIds, SentFindings, FindingId, FindingNames,
         Answered, Put, SentBoth;
    AnsweredByBoth(row, SentFindings(ops), put, more);
    if !Answered(row, SentFindings(ops)) {
      OfferedOnce(s, FindingOp(RestoredFindingId(row, index, s.used), row), z, put);
      if !Done(z, row, index, more) {
        WasFiled(s, row, index, z, ops, put);
      }
      if ComesAgain(ops, put, row, index) {
        NameUsed(put, FindingOp(FindingId(row), row));
      }
    }
  }

  lemma {:induction false} FindingsDone(s: Restoring, rows: seq<Finding>, z: Restoring, ops: seq<Operation>,
                                        put: seq<Operation>, more: seq<Finding>)
    requires After(ops, put, s, z) && SentBoth(SentFindings(ops), put, more)
    requires var t := AllFindings(s, rows, SentFindings(ops)); Later(t, z) && Holds(t, put)
    ensures Later(s, z) && Holds(s, put)
    ensures forall i :: 0 <= i < |rows| ==> (Done(z, rows[i], i, more) <==> !ComesAgain(ops, put, rows[i], i))
    decreases |rows|
  {
    hide RestoreFinding, Done, FindingNames, Later, Holds, SentFindings, ComesAgain, UsedIds, SentBoth;
    if rows != [] {
      var n := |rows| - 1;
      var front := rows[..n];
      var t := AllFindings(s, front, SentFindings(ops));
      UsedGrows(s, front, SentFindings(ops));
      FindingDone(t, rows[n], n, z, ops, put, more);
      FindingsDone(s, front, z, ops, put, more);
      assert forall i :: 0 <= i < n ==> front[i] == rows[i];
    }
  }

  lemma {:induction false} UsedGrows(s: Restoring, rows: seq<Finding>, sent: seq<Finding>)
    ensures s.used <= AllFindings(s, rows, sent).used
    decreases |rows|
  {
    if rows != [] {
      UsedGrows(s, rows[..|rows| - 1], sent);
      hide Fits, Answered, RestoredFindingId, FindingKey;
    }
  }

  lemma MoreSent(ops: seq<Operation>, put: seq<Operation>)
    ensures var all := Inserted(ops, put);
            && |all| == |ops| + |put|
            && UsedIds(all) == UsedIds(ops) + UsedIds(put)
            && SentEvidence(ops) <= SentEvidence(all) && SentCoverage(ops) <= SentCoverage(all)
            && SentBoth(SentFindings(ops), put, SentFindings(all))
  {
    hide EvidenceNames, LayerNames, FindingNames, Payloads, CompletionAt;
    var all, at := Inserted(ops, put), CompletionAt(ops);
    Pieces(ops, put, at);
    forall op | op in ops || op in put ensures op in all {}
    forall op | op in all ensures op in ops || op in put {}
    hide Inserted;
    assert UsedIds(all) == set op | op in all :: op.id;
    assert UsedIds(ops) == set op | op in ops :: op.id;
    assert UsedIds(put) == set op | op in put :: op.id;
    assert forall i :: 0 <= i < |ops| ==> ops[i] in all;
    forall f | f in SentFindings(ops) ensures f in SentFindings(all) {
      var at := PayloadSource(ops, FindingNames, f);
      PayloadMember(all, FindingNames, ops[at], f);
    }
    forall op, f | op in put && f in FindingNames(op) ensures f in SentFindings(all) {
      PayloadMember(all, FindingNames, op, f);
    }
    forall f | f in SentFindings(all) ensures f in SentFindings(ops) || exists op :: op in put && f in FindingNames(op) {
      var at := PayloadSource(all, FindingNames, f);
      if all[at] in ops { PayloadMember(ops, FindingNames, all[at], f); }
    }
  }

  /** A second restoration, over the stream the first one completed, adds nothing if
      and only if no finding comes again. */
  lemma SecondRestoration(ops: seq<Operation>, held: Ledger)
    ensures var put := PutBack(ops, held).operations;
            PutBack(Inserted(ops, put), held) == NOTHING
            <==> forall i :: 0 <= i < |held.findings| ==> !ComesAgain(ops, put, held.findings[i], i)
  {
    hide AllEvidence, AllCoverage, AllFindings, SentEvidence, SentCoverage, SentFindings, UsedIds, Fits, Done, Valid,
         FindingNames, Inserted, ComesAgain, SentBoth;
    var put := PutBack(ops, held).operations;
    MoreSent(ops, put);
    var all := Inserted(ops, put);
    if ops == [] {
      assert all == [];
      forall i | 0 <= i < |held.findings| ensures !ComesAgain(ops, put, held.findings[i], i) {
        NothingFiled(ops, held.findings[i], i);
      }
    } else {
      StateSound(ops, held.evidence, held.coverage, held.findings);
      var s, t, f := SentEvidence(ops), SentCoverage(ops), SentFindings(ops);
      var one := AllEvidence(Opening(ops), held.evidence, s);
      var two := AllCoverage(one, held.coverage, t);
      var z := Opening(all);
      assert Later(AllFindings(two, held.findings, f), z) && Holds(AllFindings(two, held.findings, f), put);
      assert After(ops, put, two, z) by { Begins(ops, held, z); }
      hide Sound, Opening, Later, Holds, After;
      FindingsDone(two, held.findings, z, ops, put, SentFindings(all));
      CoverageOffered(one, held.coverage, t, z, put);
      EvidenceOffered(Opening(ops), held.evidence, s, z, put);
      NoEvidenceAgain(z, held.evidence, SentEvidence(all));
      NoCoverageAgain(z, held.coverage, SentCoverage(all));
      FindingsAgain(z, held.findings, SentFindings(all));
      NothingYet(all);
    }
  }

  lemma NothingFiled(ops: seq<Operation>, row: Finding, index: nat)
    ensures !ComesAgain(ops, [], row, index)
  {
    hide Valid, SentFindings, Answered, FindingNames, SameFinding;
  }

  lemma Begins(ops: seq<Operation>, held: Ledger, z: Restoring)
    requires ops != []
    requires var put := PutBack(ops, held).operations;
             z.used == UsedIds(ops) + UsedIds(put) && z.room == MAX_OPERATIONS - |ops| - |put|
    ensures After(ops, PutBack(ops, held).operations,
                  AllCoverage(AllEvidence(Opening(ops), held.evidence, SentEvidence(ops)), held.coverage, SentCoverage(ops)), z)
  {
    hide AllEvidence, AllCoverage, AllFindings, SentEvidence, SentCoverage, SentFindings, UsedIds, Valid, Payloads, Restored;
    RestoredSound(ops, held.evidence, held.coverage, held.findings);
    EvidenceAdmitted(Opening(ops), held.evidence, SentEvidence(ops));
    var one := AllEvidence(Opening(ops), held.evidence, SentEvidence(ops));
    CoverageAdmitted(one, held.coverage, SentCoverage(ops));
    hide MissingEvidence, MissingCoverage, Admit;
    AdmitMoreUsed(Opening(ops), MissingEvidence(held.evidence, SentEvidence(ops)));
    AdmitMoreUsed(one, MissingCoverage(held.coverage, SentCoverage(ops)));
  }

  lemma {:induction false} AdmitMoreUsed(s: Restoring, more: seq<Operation>)
    ensures s.used <= Admit(s, more).used
    decreases |more|
  {
    if more != [] {
      AdmitMoreUsed(s, more[..|more| - 1]);
      hide Fits;
    }
  }

  lemma NothingYet(ops: seq<Operation>)
    ensures Opening(ops).records == NOTHING
  {
  }

  /** With canonical keys no finding comes again: each answers itself. */
  lemma RestoringTwiceAddsNothing(ops: seq<Operation>, held: Ledger)
    requires ProperFindings(held.findings)
    ensures PutBack(Inserted(ops, PutBack(ops, held).operations), held) == NOTHING
  {
    hide Restored, OwnKey, ByteLen, Inserted, ComesAgain;
    SecondRestoration(ops, held);
    var put := PutBack(ops, held).operations;
    forall i | 0 <= i < |held.findings| ensures !ComesAgain(ops, put, held.findings[i], i) {
      assert held.findings[i] in held.findings;
      AnswersItself(ops, put, held.findings[i], i);
    }
  }

  lemma AnswersItself(ops: seq<Operation>, put: seq<Operation>, row: Finding, index: nat)
    requires row.id == "" && OwnKey(row.key)
    ensures !ComesAgain(ops, put, row, index)
  {
    hide Valid, SentFindings, Answered, SameFinding, Tight, UsedIds, StripCorrected, Lower, Trim;
    var op := FindingOp(FindingId(row), row);
    assert FindingKey(row.key) == row.key && FindingId(row) == row.key;
    var f := FindingNames(op)[0];
    assert f in FindingNames(op) && f.key == row.key;
    TrimFixed(row.key);
    SameKeys(row, f);
  }

  /** The key a finding keeps: the ledger's sanitiser trims it. */
  lemma KeyThatMoves(a: string)
    requires a != "" && Tight(a) && Lower(a) == a && !HasSuffix(a, CORRECTED)
    ensures FindingKey(a + "-corrected -corrected") == a + "-corrected "
    ensures Trim(a + "-corrected ") == a + CORRECTED && Tight(a + CORRECTED)
    ensures FindingKey(a + CORRECTED) == a
  {
    hide Trim, StripCorrected, Lower;
    var once, spaced := a + CORRECTED, a + CORRECTED + " ";
    var id := spaced + CORRECTED;
    assert spaced == a + "-corrected " && id == a + "-corrected -corrected";
    LowerCorrected(a);
    assert Tight(id) && Tight(once);
    TrimFixed(id);
    TrimFixed(once);
    TrimLastSpace(once);
    StripOne(spaced);
    StripOne(a);
    NothingToStrip(a);
    assert spaced[|spaced| - 1] == ' ' && CORRECTED[|CORRECTED| - 1] == 'd';
    assert !HasSuffix(spaced, CORRECTED) by {
      assert spaced[|spaced| - |CORRECTED|..][|CORRECTED| - 1] == ' ';
    }
    NothingToStrip(spaced);
  }

  lemma StripOne(t: string)
    ensures StripCorrected(t + CORRECTED) == StripCorrected(t)
  {
    assert (t + CORRECTED)[..|t|] == t;
  }

  lemma TrimLastSpace(t: string)
    requires t != "" && Tight(t)
    ensures Trim(t + " ") == t
  {
    var s := t + " ";
    assert TrimLeft(s) == s;
    assert SpacesStart(s, |t|) == |t|;
    assert s[..|t|] == t;
  }

  lemma LowerCorrected(a: string)
    requires Lower(a) == a
    ensures Lower(a + CORRECTED) == a + CORRECTED
    ensures Lower(a + CORRECTED + " " + CORRECTED) == a + CORRECTED + " " + CORRECTED
  {
    assert forall i :: 0 <= i < |CORRECTED| ==> LowerChar(CORRECTED[i]) == CORRECTED[i];
    assert forall i :: 0 <= i < |a| ==> LowerChar(a[i]) == a[i];
  }

  /** One carried finding, missing from the round, with room for two operations and
      both its names free. */
  ghost predicate OneMissing(ops: seq<Operation>, row: Finding) {
    && ops != [] && |ops| + 2 <= MAX_OPERATIONS
    && row.id == "" && row.key != "" && !Answered(row, SentFindings(ops))
    && Valid(FindingOp(row.key, row)) && row.key !in UsedIds(ops)
    && Valid(FindingOp(SpareId(row, 0), row)) && SpareId(row, 0) !in UsedIds(ops) && SpareId(row, 0) != row.key
  }

  lemma FirstRestoration(ops: seq<Operation>, row: Finding)
    requires OneMissing(ops, row)
    ensures PutBack(ops, Ledger([], [], [row])).operations == [FindingOp(row.key, row)]
  {
    hide Answered, FindingKey, UsedIds, SentFindings, SentEvidence, SentCoverage, CarriedOperationId, SameFinding;
    ValidName(FindingOp(row.key, row));
    hide Valid, ByteLen;
    assert [row][..0] == [] && [row][0] == row;
    var z, sent := Opening(ops), SentFindings(ops);
    assert AllFindings(z, [], sent) == z;
    assert AllFindings(z, [row], sent) == RestoreFinding(z, row, 0, sent);
  }

  /** The operation "a-corrected -corrected" leaves the ledger the key "a-corrected",
      whose own operation has the key "a": the finding does not know itself and is
      filed twice. */
  lemma CorrectedKeyComesAgain(ops: seq<Operation>, row: Finding, a: string)
    requires a != "" && Tight(a) && Lower(a) == a && !HasSuffix(a, CORRECTED)
    requires OneMissing(ops, row) && row.key == Trim(FindingKey(a + "-corrected -corrected"))
    ensures PutBack(Inserted(ops, PutBack(ops, Ledger([], [], [row])).operations), Ledger([], [], [row])) != NOTHING
  {
    hide Restored, Inserted, FindingKey, Lower, Trim, Tight, SentFindings, UsedIds, Answered, Valid, SpareId, HasSuffix;
    KeyThatMoves(a);
    FirstRestoration(ops, row);
    SecondRestoration(ops, Ledger([], [], [row]));
    var op := FindingOp(row.key, row);
    assert UsedIds([op]) == {row.key} by { UsedSnoc([], op); NoNames(); }
    assert FindingId(row) == row.key;
    forall other, f | other in [op] && f in FindingNames(other) ensures !SameFinding(row, f) {
      assert f.key == a;
      TrimFixed(a);
      TrimFixed(row.key);
      OtherKey(row, f);
    }
    assert [row][0] == row && op in [op];
    assert ComesAgain(ops, [op], [row][0], 0);
  }

  lemma NoNames()
    ensures UsedIds([]) == {} && forall op: Operation :: [] + [op] == [op]
  {
  }

  lemma OtherKey(prior: Finding, current: Finding)
    requires Trim(prior.key) == prior.key != "" && Trim(current.key) == current.key != "" && prior.key != current.key
    ensures !SameFinding(prior, current) && FindingIdentity(prior) != FindingIdentity(current)
  {
    hide Trim, Lower;
    assert FindingIdentity(prior)[4..] == prior.key && FindingIdentity(current)[4..] == current.key;
  }

  /** Nor does it need a second restoration: left out of one round, such a finding
      is held twice after it, once under a key nothing was ever sent under. */
  lemma CorrectedKeyMultiplies(lane: Lane, ops: seq<Operation>, row: Finding, a: string)
    requires Folded(lane, ops, true).Some? && Own(lane, ops).findings == []
    requires a != "" && Tight(a) && Lower(a) == a && !HasSuffix(a, CORRECTED)
    requires OneMissing(CanonicalAll(ops), row) && CleanFinding(row) == Some(row)
    requires row.key == Trim(FindingKey(a + "-corrected -corrected"))
    ensures var held := Ledger([], [], [row]);
            var kept := Kept(held, Shown(lane, held, ops)).findings;
            kept == [row, row.(key := a)] && a != row.key && FindingName(kept[0]) == row.key && FindingName(kept[1]) == a
  {
    hide Folded, Own, Restored, FindingKey, Lower, Trim, Tight, SentFindings, UsedIds, Answered, Valid, SpareId, HasSuffix,
         CleanFinding, CanonicalAll, SameFinding, FindingIdentity, Acceptable, Kept, Shown, ByteLen, OneMissing;
    var moved := row.(key := a);
    KeyThatMoves(a);
    assert row.key == a + CORRECTED && row.key[..|a|] == a && row.id == "" by { MissingIsNameless(ops, row); }
    FirstRestoration(CanonicalAll(ops), row);
    OneFiled(CanonicalAll(ops), row);
    TrimFixed(a);
    TrimFixed(row.key);
    ByteLenPrefix(row.key, |a|);
    KeyLess(row, a);
    OtherKey(row, moved);
    KeptTwo(lane, ops, row, moved);
  }

  lemma MissingIsNameless(ops: seq<Operation>, row: Finding)
    requires OneMissing(CanonicalAll(ops), row)
    ensures row.id == ""
  {
    hide CanonicalAll, Valid, Answered, SentFindings, UsedIds, SpareId;
  }

  lemma KeptTwo(lane: Lane, ops: seq<Operation>, row: Finding, moved: Finding)
    requires Folded(lane, ops, true).Some? && Own(lane, ops).findings == [] && row.id == moved.id == ""
    requires PutBack(CanonicalAll(ops), Ledger([], [], [row])).findings == [moved]
    requires CleanFinding(moved) == Some(moved)
    requires !SameFinding(row, moved) && FindingIdentity(row) != FindingIdentity(moved)
    ensures Kept(Ledger([], [], [row]), Shown(lane, Ledger([], [], [row]), ops)).findings == [row, moved]
  {
    hide Folded, Own, Restored, CanonicalAll, CleanFinding, SameFinding, FindingIdentity, CarriedFindings;
    MergesApart(row, moved);
    assert [moved] + [] == [moved] && [moved][..0] == [] && [moved][0] == moved;
    assert Cleaned([moved], CleanFinding) == [moved];
    assert Erased([row, moved]) == [row, moved];
  }

  lemma OneFiled(ops: seq<Operation>, row: Finding)
    requires PutBack(ops, Ledger([], [], [row])).operations == [FindingOp(row.key, row)]
    ensures PutBack(ops, Ledger([], [], [row])).findings == [row.(key := FindingKey(row.key))]
  {
    hide Restored, FindingKey, Valid, UsedIds;
    RestoredSound(ops, [], [], [row]);
    var op := FindingOp(row.key, row);
    Snoc([], op, FindingRow);
    assert [] + [op] == [op];
  }

  /** The sanitiser reads the key of a finding only to trim it. */
  lemma KeyLess(row: Finding, a: string)
    requires CleanFinding(row) == Some(row) && Tight(a) && ByteLen(a) <= ByteLen(row.key) && Tight(row.key)
    ensures CleanFinding(row.(key := a)) == Some(row.(key := a))
  {
    hide Trim, Tight, ByteLen, Lower, Cut;
    CutTwice(Trim(row.key), 120);
    BoundedFixed(a, 120);
  }

  lemma MergesApart(row: Finding, moved: Finding)
    requires !SameFinding(row, moved) && FindingIdentity(row) != FindingIdentity(moved)
    ensures CarriedFindings([row], [moved]) == [row, moved]
  {
    hide SameFinding, FindingIdentity;
    assert [row][..0] == [] && [row] + [moved] == [row, moved] && [row, moved][..1] == [row];
    assert Unanswered([], [moved]) == [] && [row][0] == row && [moved][0] == moved;
    assert MergeAll([row], FindingIdentity) == Merge([], FindingIdentity, row) == [row];
  }

  /** A stream whose own identifier, once trimmed, is that of a carried row: the
      round folds, the stream it is staged as does not. */
  lemma UntrimmedIdentifierIsRefused(lane: Lane, ops: seq<Operation>, row: Evidence, at: nat)
    requires Folded(lane, ops, true).Some? && |ops| < MAX_OPERATIONS
    requires at < |ops| && Trim(ops[at].id) == row.id && row.id !in UsedIds(ops)
    requires row.id !in SentEvidence(CanonicalAll(ops))
    requires row.id != "" && Valid(EvidenceOp(row)) && ValidEvidence(row)
    ensures Folded(lane, Staged(ops, Ledger([row], [], [])), true).None?
  {
    hide Folded, Valid, ValidEvidence, Restored, Trim, SentEvidence, NoClash, UsedIds, Inserted;
    var held := Ledger([row], [], []);
    var canon := CanonicalAll(ops);
    TrimIsTight(ops[at].id);
    SplicingIsCoherent(lane, ops, held);
    SameNames(ops);
    OneEvidence(canon, row);
    Clash(ops, PutBack(canon, held).operations, at, 0);
  }

  lemma SameNames(ops: seq<Operation>)
    ensures UsedIds(CanonicalAll(ops)) == UsedIds(ops)
  {
    hide ReadBody;
    assert forall i :: 0 <= i < |ops| ==> CanonicalAll(ops)[i].id == ops[i].id;
  }

  lemma Clash(ops: seq<Operation>, insert: seq<Operation>, i: nat, j: nat)
    requires i < |ops| && j < |insert| && Trim(ops[i].id) == insert[j].id
    ensures !NoClash(ops, insert)
  {
    hide Trim;
  }

  lemma OneEvidence(ops: seq<Operation>, row: Evidence)
    requires ops != [] && |ops| < MAX_OPERATIONS
    requires row.id != "" && row.id !in SentEvidence(ops) && row.id !in UsedIds(ops) && Valid(EvidenceOp(row))
    ensures PutBack(ops, Ledger([row], [], [])).operations == [EvidenceOp(row)]
  {
    hide SentFindings, SentEvidence, SentCoverage, UsedIds, Valid;
    assert [row][..0] == [] && [row][0] == row;
    var z, sent := Opening(ops), SentEvidence(ops);
    assert AllEvidence(z, [], sent) == z;
    assert AllEvidence(z, [row], sent) == RestoreEvidence(z, row, sent);
  }
}
