/** A run that loses a row for good measure: fifty rows of evidence put back ahead of a
    round's own leave the sanitiser no room to read any. */
module LateRows {
  import opened Options
  import opened Text
  import opened Investigation
  import opened Fold
  import opened FoldSpec
  import opened Carry
  import opened PartialRound
  import opened Splice
  import opened Restoration
  import opened Refold
  import opened LastWords
  import opened Sanitize
  import opened Rounds
  import opened RoundRuns

  /** Behind fifty rows put back, nothing a round says about evidence is kept. */
  lemma FullLedgerIsDeaf(lane: Lane, held: Ledger, ops: seq<Operation>)
    requires Folded(lane, ops, true).Some? && EvidenceKeeps(held.evidence)
    requires |PutBack(CanonicalAll(ops), held).evidence| >= Sanitize.MAX_EVIDENCE
    ensures ByKey(Kept(held, Shown(lane, held, ops)).evidence, EvidenceId) == ByKey(held.evidence, EvidenceId)
  {
    hide Folded, Own, Restored, CanonicalAll, EvidenceKeeps, Kept, Shown, ByKey;
    EvidenceKept(lane, held, ops);
    NoRows<Evidence>(EvidenceId);
    assert EvidenceHeard(lane, held, ops) == [];
  }

  function Recorded(rows: seq<Evidence>): (r: seq<Operation>)
    ensures |r| == |rows|
  {
    seq(|rows|, i requires 0 <= i < |rows| => EvidenceOp(rows[i]))
  }

  /** A round that records rows of evidence and completes. */
  function Round(rows: seq<Evidence>, done: Operation): seq<Operation> {
    Recorded(rows) + [done]
  }

  ghost predicate Recordable(rows: seq<Evidence>) {
    && (forall e :: e in rows ==>
          e.id != "" && Tight(e.id) && Valid(EvidenceOp(e)) && ValidEvidence(e) && CleanEvidence(e) == Some(e))
    && DistinctKeys(rows, EvidenceId)
  }

  ghost predicate Closes(lane: Lane, done: Operation) {
    Folded(lane, [done], true).Some? && done.body.CompleteEpisode? && done.body.completion.coverage == []
  }

  lemma {:induction false} RecordedRows(rows: seq<Evidence>)
    requires forall e :: e in rows ==> Tight(e.id)
    ensures Payloads(Recorded(rows), EvidenceIn) == rows && Payloads(Recorded(rows), EvidenceRow) == rows
    ensures Payloads(Recorded(rows), CoverageIn) == [] && Payloads(Recorded(rows), FindingIn) == []
  {
    hide Trim, Tight;
    if rows != [] {
      var front, last := rows[..|rows| - 1], rows[|rows| - 1];
      assert last in rows;
      RecordedRows(front);
      TrimFixed(last.id);
      assert Recorded(rows)[..|rows| - 1] == Recorded(front) && Recorded(rows)[|rows| - 1] == EvidenceOp(last);
      assert last.(id := last.id) == last;
    }
  }

  lemma RecordedOps(rows: seq<Evidence>)
    requires Recordable(rows)
    ensures RecordOps(Recorded(rows)) && Unshared(Recorded(rows)) && Checked(Recorded(rows))
  {
    hide Tight, Valid, ValidEvidence, CleanEvidence;
    assert forall i :: 0 <= i < |rows| ==> rows[i] in rows;
  }

  lemma RoundSpliced(rows: seq<Evidence>, done: Operation)
    requires done.body.CompleteEpisode?
    ensures Round(rows, done) == Inserted([done], Recorded(rows)) && CompletionAt([done]) == 0
  {
    assert [done][..0] == [];
  }

  /** Such a round folds, and its records are the rows. */
  lemma RoundFolds(lane: Lane, rows: seq<Evidence>, done: Operation)
    requires Recordable(rows) && Closes(lane, done) && |rows| < MAX_OPERATIONS
    requires forall e :: e in rows ==> Trim(done.id) != e.id
    ensures Folded(lane, Round(rows, done), true).Some?
    ensures Own(lane, Round(rows, done)).evidence == rows
    ensures Own(lane, Round(rows, done)).coverage == [] && Own(lane, Round(rows, done)).findings == []
  {
    hide Folded, Trim, Tight, Valid, ValidEvidence, CleanEvidence, Recorded, Payloads, Acceptable, Round, CompletionAt,
         RecordOps, DistinctKeys, Own, Declared;
    RecordedOps(rows);
    RecordedRows(rows);
    RoundSpliced(rows, done);
    assert NoClash([done], Recorded(rows)) by { NamedApart(rows, done); }
    SplicedFold(lane, [done], Recorded(rows), true);
    OwnRows(lane, Round(rows, done));
    InsertedPayloads([done], Recorded(rows), EvidenceIn);
    InsertedPayloads([done], Recorded(rows), CoverageIn);
    InsertedPayloads([done], Recorded(rows), FindingIn);
    LoneCompletion(done);
  }

  lemma NamedApart(rows: seq<Evidence>, done: Operation)
    requires forall e :: e in rows ==> Trim(done.id) != e.id
    ensures NoClash([done], Recorded(rows))
  {
    hide Trim;
    assert forall j :: 0 <= j < |rows| ==> rows[j] in rows;
  }

  lemma LoneCompletion(done: Operation)
    requires done.body.CompleteEpisode? && done.body.completion.coverage == []
    ensures [done][..0] == [] && [done][0..] == [done]
    ensures Payloads([done], EvidenceIn) == [] && Payloads([done], CoverageIn) == [] && Payloads([done], FindingIn) == []
    ensures Payloads([], EvidenceIn) == [] && Payloads([], CoverageIn) == [] && Payloads([], FindingIn) == []
  {
    assert [done][..0] == [];
  }

  lemma {:induction false} MergeApart<T>(rows: seq<T>, key: T -> string)
    requires DistinctKeys(rows, key)
    ensures MergeAll(rows, key) == rows
  {
    if rows != [] {
      var front := rows[..|rows| - 1];
      MergeApart(front, key);
      assert forall i :: 0 <= i < |front| ==> front[i] == rows[i];
    }
  }

  /** The ledger after a first round is its rows. */
  lemma FirstLedger(lane: Lane, rows: seq<Evidence>, done: Operation)
    requires Recordable(rows) && Closes(lane, done) && |rows| <= Sanitize.MAX_EVIDENCE
    requires forall e :: e in rows ==> Trim(done.id) != e.id
    ensures Folded(lane, Round(rows, done), true).Some?
    ensures Kept(Ledger([], [], []), Shown(lane, Ledger([], [], []), Round(rows, done))) == Ledger(rows, [], [])
  {
    hide Folded, Own, Trim, Tight, Valid, ValidEvidence, CleanEvidence, CleanCoverage, CleanFinding, Round, MergeAll,
         DistinctKeys, Recordable, Cleaned, Closes, CanonicalAll;
    RoundFolds(lane, rows, done);
    var none := Ledger([], [], []);
    NothingHeld(CanonicalAll(Round(rows, done)));
    assert Shown(lane, none, Round(rows, done)).evidence == [] + rows;
    CleanRows(rows);
    MergeApart(rows, EvidenceId);
    MergeApart<Coverage>([], CoverageLayer) by { NoRows<Coverage>(CoverageLayer); }
    MergeApart<Finding>([], FindingIdentity) by { NoRows<Finding>(FindingIdentity); }
    CleanNothing(CleanCoverage);
    CleanNothing(CleanFinding);
    assert [] + rows == rows;
  }

  lemma CleanNothing<T>(clean: T -> Option<T>)
    ensures Cleaned([], clean) == []
  {
  }

  lemma CleanRows(rows: seq<Evidence>)
    requires Recordable(rows)
    ensures Cleaned(rows, CleanEvidence) == rows && DistinctKeys(rows, EvidenceId) && EvidenceKeeps(rows)
  {
    hide CleanEvidence, Tight, Valid, ValidEvidence, Cleaned;
    FixedCleaned(rows, CleanEvidence);
  }

  lemma NothingHeld(ops: seq<Operation>)
    ensures PutBack(ops, Ledger([], [], [])) == NOTHING
  {
    hide SentEvidence, SentCoverage, SentFindings, UsedIds;
  }

  lemma {:induction false} AllMissing(rows: seq<Evidence>, sent: set<string>)
    requires forall e :: e in rows ==> e.id != "" && e.id !in sent
    ensures MissingEvidence(rows, sent) == Recorded(rows)
  {
    if rows != [] {
      var front := rows[..|rows| - 1];
      assert rows[|rows| - 1] in rows;
      AllMissing(front, sent);
      assert Recorded(rows) == Recorded(front) + [EvidenceOp(rows[|rows| - 1])];
    }
  }

  /** What the survey finds in the second round. */
  lemma SecondSurvey(late: Evidence, done: Operation)
    requires done.body.CompleteEpisode? && done.body.completion.coverage == [] && Tight(late.id)
    ensures var canon := CanonicalAll(Round([late], done));
            && |canon| == 2 && UsedIds(canon) == {late.id, done.id} && SentEvidence(canon) <= {late.id}
  {
    hide Trim, Tight;
    TrimFixed(late.id);
    var canon := CanonicalAll(Round([late], done));
    assert canon[0] == Canonical(EvidenceOp(late)) && canon[1] == Canonical(done);
    assert canon == [canon[0], canon[1]];
    assert UsedIds(canon) == {canon[0].id, canon[1].id};
  }

  /** Fifty rows and one more, told apart from each other and from the completion. */
  ghost predicate FiftyAndOne(lane: Lane, rows: seq<Evidence>, late: Evidence, done: Operation) {
    && |rows| == Sanitize.MAX_EVIDENCE && Recordable([late]) && late.id != Trim(done.id)
    && (forall e :: e in rows ==> e.id !in {late.id, done.id, Trim(done.id)})
    && Recordable(rows) && Closes(lane, done)
  }

  /** Two rounds that fold, the second with a row the sanitiser would take, and a
      ledger that does not hold it. */
  ghost predicate Loses(lane: Lane, first: seq<Operation>, second: seq<Operation>, late: Evidence) {
    && Folded(lane, first, true).Some? && Folded(lane, second, true).Some?
    && late in Own(lane, second).evidence && CleanEvidence(late) == Some(late)
    && AllFold(lane, [first, second])
    && late.id !in ByKey(Held(lane, [first, second]).evidence, EvidenceId)
  }

  /** Fifty rows in one round and a new one in the next: it is sent and accepted, the
      limit of a hundred operations is nowhere near, and the ledger does not hold it. */
  lemma FiftyFirstRowIsLost(lane: Lane, rows: seq<Evidence>, late: Evidence, done: Operation)
    requires FiftyAndOne(lane, rows, late, done)
    ensures Loses(lane, Round(rows, done), Round([late], done), late)
  {
    hide Folded, Own, Trim, Tight, Valid, ValidEvidence, CleanEvidence, Round, Recordable, Closes, Kept, Shown, ByKey,
         CanonicalAll;
    var first, second, held := Round(rows, done), Round([late], done), Ledger(rows, [], []);
    FirstLedger(lane, rows, done);
    RoundFolds(lane, [late], done) by { assert forall e :: e in [late] ==> e == late; }
    CleanRows(rows);
    AllPutBack(rows, late, done) by { Unfolded(lane, rows, late, done); }
    FullLedgerIsDeaf(lane, held, second);
    TwoRounds(lane, first, second, held);
    ByKeyNames(rows, EvidenceId);
    assert !NameIn(rows, EvidenceId, late.id);
    assert CleanEvidence(late) == Some(late) by { Unfolded(lane, rows, late, done); }
    hide Held;
  }

  lemma TwoRounds(lane: Lane, first: seq<Operation>, second: seq<Operation>, held: Ledger)
    requires Folded(lane, first, true).Some? && Folded(lane, second, true).Some?
    requires Kept(Ledger([], [], []), Shown(lane, Ledger([], [], []), first)) == held
    ensures AllFold(lane, [first, second])
    ensures Held(lane, [first, second]) == Kept(held, Shown(lane, held, second))
  {
    hide Folded, Kept, Shown;
    assert [first][..0] == [] && [first, second][..1] == [first];
    assert Held(lane, []) == Ledger([], [], []);
    assert Held(lane, [first]) == held;
  }

  lemma Unfolded(lane: Lane, rows: seq<Evidence>, late: Evidence, done: Operation)
    requires Recordable([late]) && Closes(lane, done)
    ensures Tight(late.id) && done.body.CompleteEpisode? && done.body.completion.coverage == []
    ensures CleanEvidence(late) == Some(late)
  {
    hide Folded, Tight, Valid, ValidEvidence, CleanEvidence;
    assert late in [late];
  }

  lemma AllPutBack(rows: seq<Evidence>, late: Evidence, done: Operation)
    requires |rows| == Sanitize.MAX_EVIDENCE && Recordable(rows) && Tight(late.id)
    requires done.body.CompleteEpisode? && done.body.completion.coverage == []
    requires forall e :: e in rows ==> e.id !in {late.id, done.id}
    ensures |PutBack(CanonicalAll(Round([late], done)), Ledger(rows, [], [])).evidence| == |rows|
  {
    hide Trim, Tight, Valid, ValidEvidence, CleanEvidence, Round, CanonicalAll, Restored, SentEvidence, UsedIds, Payloads,
         DistinctKeys, SentCoverage, SentFindings, Unshared, Checked, Recorded, NamesFree;
    var canon, held := CanonicalAll(Round([late], done)), Ledger(rows, [], []);
    SecondSurvey(late, done);
    AllMissing(rows, SentEvidence(canon));
    RecordedOps(rows);
    assert Missing(canon, rows, [], []) == Recorded(rows) + [] + [];
    assert Recorded(rows) + [] + [] == Recorded(rows);
    assert Fresh(UsedIds(canon), Recorded(rows)) by { FreshRows(rows, UsedIds(canon)); }
    AllComeBack(canon, held);
    RecordedRows(rows);
  }

  lemma FreshRows(rows: seq<Evidence>, used: set<string>)
    requires forall e :: e in rows ==> e.id !in used
    ensures Fresh(used, Recorded(rows))
  {
    assert forall i :: 0 <= i < |rows| ==> rows[i] in rows;
  }
}
