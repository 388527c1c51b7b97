/** Whole runs of correction rounds: when the ledger they leave is the last row sent on
    everything. */
module RoundRuns {
  import opened Options
  import opened Text
  import opened Investigation
  import opened Fold
  import opened FoldSpec
  import opened Carry
  import opened PartialRound
  import opened Restoration
  import opened Refold
  import opened LastWords
  import opened Sanitize
  import opened Rounds

  ghost predicate AllFold(lane: Lane, rounds: seq<seq<Operation>>) {
    forall k :: 0 <= k < |rounds| ==> Folded(lane, rounds[k], true).Some?
  }

  /** What the run's context holds after the rounds. */
  function Held(lane: Lane, rounds: seq<seq<Operation>>): Ledger
    requires AllFold(lane, rounds)
  {
    if rounds == [] then Ledger([], [], [])
    else
      var held := Held(lane, rounds[..|rounds| - 1]);
      Kept(held, Shown(lane, held, rounds[|rounds| - 1]))
  }

  /** Every row the model sent that the sanitiser takes, round after round, and
      whether it stood within the limit behind the rows put back ahead of it. Evidence
      and coverage come back as they were held; a finding may come back under another
      key, so the findings put back are told as well. */
  datatype Speech = Speech(
    evidence: seq<Utterance<Evidence>>, coverage: seq<Utterance<Coverage>>, findings: seq<Utterance<Finding>>)

  function Spoken(lane: Lane, held: Ledger, ops: seq<Operation>): Speech
    requires Folded(lane, ops, true).Some?
  {
    var back, own := PutBack(CanonicalAll(ops), held), Own(lane, ops);
    Speech(Uttered(own.evidence, Room(Sanitize.MAX_EVIDENCE, back.evidence), CleanEvidence),
           Uttered(own.coverage, Room(Sanitize.MAX_COVERAGE, back.coverage), CleanCoverage),
           AllReturned(Cleaned(FirstRows(Erased(back.findings), Sanitize.MAX_FINDINGS), CleanFinding))
           + Uttered(Erased(own.findings), Room(Sanitize.MAX_FINDINGS, back.findings), CleanFinding))
  }

  function Said(lane: Lane, rounds: seq<seq<Operation>>): Speech
    requires AllFold(lane, rounds)
  {
    if rounds == [] then Speech([], [], [])
    else
      var front, ops := rounds[..|rounds| - 1], rounds[|rounds| - 1];
      var before, now := Said(lane, front), Spoken(lane, Held(lane, front), ops);
      Speech(before.evidence + now.evidence, before.coverage + now.coverage, before.findings + now.findings)
  }

  lemma NoRows<T>(key: T -> string)
    ensures ByKey<T>([], key) == map[] && DistinctKeys<T>([], key)
  {
  }

  /** Whatever the rounds were and however little could be restored, the ledger is the
      override of the evidence read; it is the override of all evidence sent exactly
      when each id's last row was read or repeats the row read before it. */
  lemma EvidenceIsLastWritten(lane: Lane, rounds: seq<seq<Operation>>)
    requires AllFold(lane, rounds)
    ensures ByKey(Held(lane, rounds).evidence, EvidenceId) == ByKey(ReadRows(Said(lane, rounds).evidence), EvidenceId)
    ensures ByKey(Held(lane, rounds).evidence, EvidenceId) == ByKey(Rows(Said(lane, rounds).evidence), EvidenceId)
       <==> LastWordsStand(Said(lane, rounds).evidence, EvidenceId)
    ensures EvidenceKeeps(Held(lane, rounds).evidence)
  {
    hide Held, Said, ByKey, LastWordsStand, ReadRows, Rows, EvidenceKeeps;
    EvidenceIsRead(lane, rounds);
    LastWordsExactly(Said(lane, rounds).evidence, EvidenceId);
  }

  lemma {:induction false} EvidenceIsRead(lane: Lane, rounds: seq<seq<Operation>>)
    requires AllFold(lane, rounds)
    ensures ByKey(Held(lane, rounds).evidence, EvidenceId) == ByKey(ReadRows(Said(lane, rounds).evidence), EvidenceId)
    ensures EvidenceKeeps(Held(lane, rounds).evidence)
  {
    hide Folded, Own, Tight, ValidEvidence, Kept, Shown, ByKey, DistinctKeys, CleanEvidence, Uttered, Cleaned, PutBack,
         CanonicalAll;
    if rounds == [] {
      NoRows<Evidence>(EvidenceId);
    } else {
      var front, ops := rounds[..|rounds| - 1], rounds[|rounds| - 1];
      var held := Held(lane, front);
      EvidenceIsRead(lane, front);
      hide EvidenceKeeps;
      EvidenceKept(lane, held, ops);
      var now := Spoken(lane, held, ops).evidence;
      UtteredRows(Own(lane, ops).evidence, Room(Sanitize.MAX_EVIDENCE, PutBack(CanonicalAll(ops), held).evidence), CleanEvidence);
      hide ReadRows;
      RowsConcat(Said(lane, front).evidence, now);
      ByKeyConcat(ReadRows(Said(lane, front).evidence), ReadRows(now), EvidenceId);
    }
  }

  /** The same for coverage, by lower-cased and trimmed layer. */
  lemma CoverageIsLastWritten(lane: Lane, rounds: seq<seq<Operation>>)
    requires AllFold(lane, rounds)
    ensures ByKey(Held(lane, rounds).coverage, LayerName) == ByKey(ReadRows(Said(lane, rounds).coverage), LayerName)
    ensures ByKey(Held(lane, rounds).coverage, LayerName) == ByKey(Rows(Said(lane, rounds).coverage), LayerName)
       <==> LastWordsStand(Said(lane, rounds).coverage, LayerName)
    ensures CoverageKeeps(Held(lane, rounds).coverage)
  {
    hide Held, Said, ByKey, LastWordsStand, ReadRows, Rows, CoverageKeeps;
    CoverageIsRead(lane, rounds);
    LastWordsExactly(Said(lane, rounds).coverage, LayerName);
  }

  lemma {:induction false} CoverageIsRead(lane: Lane, rounds: seq<seq<Operation>>)
    requires AllFold(lane, rounds)
    ensures ByKey(Held(lane, rounds).coverage, LayerName) == ByKey(ReadRows(Said(lane, rounds).coverage), LayerName)
    ensures CoverageKeeps(Held(lane, rounds).coverage)
  {
    hide Folded, Own, Kept, Shown, ByKey, DistinctKeys, CoverageIdentity, CleanCoverage, Uttered, Cleaned, PutBack,
         CanonicalAll;
    if rounds == [] {
      NoRows<Coverage>(LayerName);
      NoRows<Coverage>(CoverageLayer);
    } else {
      var front, ops := rounds[..|rounds| - 1], rounds[|rounds| - 1];
      var held := Held(lane, front);
      CoverageIsRead(lane, front);
      hide CoverageKeeps;
      CoverageKept(lane, held, ops);
      var now := Spoken(lane, held, ops).coverage;
      UtteredRows(Own(lane, ops).coverage, Room(Sanitize.MAX_COVERAGE, PutBack(CanonicalAll(ops), held).coverage), CleanCoverage);
      hide ReadRows;
      RowsConcat(Said(lane, front).coverage, now);
      ByKeyConcat(ReadRows(Said(lane, front).coverage), ReadRows(now), LayerName);
    }
  }

  /** No finding is sent or put back under a blank key. */
  ghost predicate FindingsNamed(lane: Lane, rounds: seq<seq<Operation>>)
    requires AllFold(lane, rounds)
  {
    forall k :: 0 <= k < |rounds| ==> RoundNamed(lane, Held(lane, rounds[..k]), rounds[k])
  }

  /** The same for findings, by trimmed key: the ledger is the override of what was read,
      the findings put back included, and of all findings sent exactly when the last
      word under each key was sent and read, repeats what was read, or, put back by the
      host, repeats what was sent. */
  lemma FindingsAreLastWritten(lane: Lane, rounds: seq<seq<Operation>>)
    requires AllFold(lane, rounds) && FindingsNamed(lane, rounds)
    ensures ByKey(Held(lane, rounds).findings, FindingName) == ByKey(ReadRows(Said(lane, rounds).findings), FindingName)
    ensures ByKey(Held(lane, rounds).findings, FindingName) == ByKey(Rows(Said(lane, rounds).findings), FindingName)
       <==> LastWordsStand(Said(lane, rounds).findings, FindingName)
    ensures FindingsKeep(Held(lane, rounds).findings)
  {
    hide Held, Said, ByKey, LastWordsStand, ReadRows, Rows, FindingsKeep;
    FindingsAreRead(lane, rounds);
    LastWordsExactly(Said(lane, rounds).findings, FindingName);
  }

  lemma {:induction false} FindingsAreRead(lane: Lane, rounds: seq<seq<Operation>>)
    requires AllFold(lane, rounds) && FindingsNamed(lane, rounds)
    ensures ByKey(Held(lane, rounds).findings, FindingName) == ByKey(ReadRows(Said(lane, rounds).findings), FindingName)
    ensures FindingsKeep(Held(lane, rounds).findings)
  {
    hide Folded, Own, Kept, Shown, ByKey, DistinctKeys, FindingName, Erased, CanonicalAll, CleanFinding, Uttered, Cleaned,
         PutBack, RoundNamed, FindingsTold, ReadRows;
    if rounds == [] {
      NoRows<Finding>(FindingName);
      NoRows<Finding>(FindingIdentity);
      NothingRead<Finding>();
    } else {
      var front, ops := rounds[..|rounds| - 1], rounds[|rounds| - 1];
      forall k | 0 <= k < |front| ensures front[..k] == rounds[..k] {}
      var held := Held(lane, front);
      FindingsAreRead(lane, front);
      hide FindingsKeep;
      FindingsKept(lane, held, ops);
      var now := Spoken(lane, held, ops).findings;
      ToldIsRead(lane, held, ops);
      RowsConcat(Said(lane, front).findings, now);
      ByKeyConcat(ReadRows(Said(lane, front).findings), ReadRows(now), FindingName);
    }
  }

  lemma NothingRead<T>()
    ensures ReadRows<T>([]) == [] && Rows<T>([]) == []
  {
  }

  lemma ToldIsRead(lane: Lane, held: Ledger, ops: seq<Operation>)
    requires Folded(lane, ops, true).Some?
    ensures ReadRows(Spoken(lane, held, ops).findings) == Erased(FindingsTold(lane, held, ops))
  {
    hide Folded, Own, Erased, CanonicalAll, CleanFinding, Uttered, Cleaned, PutBack, ReadRows;
    var back, own, limit := PutBack(CanonicalAll(ops), held).findings, Own(lane, ops).findings, Sanitize.MAX_FINDINGS;
    var first, rest := Cleaned(FirstRows(back, limit), CleanFinding), Cleaned(FirstRows(own, Room(limit, back)), CleanFinding);
    ErasedCleaned(back, limit);
    ErasedCleaned(own, Room(limit, back));
    AllReadRows(Erased(first));
    UtteredRows(Erased(own), Room(limit, back), CleanFinding);
    RowsConcat(AllReturned(Erased(first)), Uttered(Erased(own), Room(limit, back), CleanFinding));
    ErasedConcat(first, rest);
  }

  /** Each round names its findings canonically, and no identifier it uses is the
      key of a finding it leaves out. */
  ghost predicate FindingsKeepTheirNames(lane: Lane, rounds: seq<seq<Operation>>)
    requires AllFold(lane, rounds)
  {
    forall k :: 0 <= k < |rounds| ==>
      WellKeyed(rounds[k]) && NamesFree(CanonicalAll(rounds[k]), Held(lane, rounds[..k]))
  }

  lemma NamesOfFront(lane: Lane, rounds: seq<seq<Operation>>)
    requires AllFold(lane, rounds) && FindingsKeepTheirNames(lane, rounds) && rounds != []
    ensures var front, ops := rounds[..|rounds| - 1], rounds[|rounds| - 1];
            && AllFold(lane, front) && FindingsKeepTheirNames(lane, front)
            && WellKeyed(ops) && NamesFree(CanonicalAll(ops), Held(lane, front))
  {
    hide Folded, WellKeyed, NamesFree, CanonicalAll, Held;
    var front := rounds[..|rounds| - 1];
    forall k | 0 <= k < |front| ensures front[..k] == rounds[..k] {}
  }

  lemma NamedSnoc(lane: Lane, rounds: seq<seq<Operation>>)
    requires AllFold(lane, rounds) && rounds != [] && FindingsNamed(lane, rounds[..|rounds| - 1])
    requires RoundNamed(lane, Held(lane, rounds[..|rounds| - 1]), rounds[|rounds| - 1])
    ensures FindingsNamed(lane, rounds)
  {
    hide Folded, RoundNamed, Held;
    var front := rounds[..|rounds| - 1];
    forall k | 0 <= k < |front| ensures front[..k] == rounds[..k] {}
  }

  /** Then every finding comes back exactly as it was held. */
  lemma {:induction false} FindingsStayProper(lane: Lane, rounds: seq<seq<Operation>>)
    requires AllFold(lane, rounds) && FindingsKeepTheirNames(lane, rounds)
    ensures FindingsNamed(lane, rounds) && ProperFindings(Held(lane, rounds).findings)
  {
    hide Folded, Own, Kept, Shown, OwnKey, ByteLen, WellKeyed, NamesFree, CanonicalAll, RoundNamed, FindingsKeep,
         FindingsKeepTheirNames;
    if rounds != [] {
      var front, ops := rounds[..|rounds| - 1], rounds[|rounds| - 1];
      NamesOfFront(lane, rounds);
      FindingsStayProper(lane, front);
      FindingsAreRead(lane, front);
      RoundStaysProper(lane, Held(lane, front), ops);
      NamedSnoc(lane, rounds);
      hide FindingsNamed;
    }
  }

  lemma RoundStaysProper(lane: Lane, held: Ledger, ops: seq<Operation>)
    requires Folded(lane, ops, true).Some? && WellKeyed(ops) && NamesFree(CanonicalAll(ops), held)
    requires ProperFindings(held.findings) && FindingsKeep(held.findings)
    ensures RoundNamed(lane, held, ops)
    ensures ProperFindings(Kept(held, Shown(lane, held, ops)).findings)
  {
    hide Folded, Own, Restored, CanonicalAll, OwnKey, ByteLen, WellKeyed, NamesFree, CleanFinding, Cleaned, FindingName,
         Kept, Shown, DistinctKeys, Erased;
    var back, own, limit := PutBack(CanonicalAll(ops), held).findings, Own(lane, ops).findings, Sanitize.MAX_FINDINGS;
    OwnFindingsKeyed(lane, ops);
    OwnKeysNamed(own);
    FindingsFromHeld(CanonicalAll(ops), held);
    ProperKeys(held.findings);
    FindingsKept(lane, held, ops);
    var first, rest := FirstRows(back, limit), FirstRows(own, Room(limit, back));
    assert OwnKeys(first) by { PartOwn(first, held.findings); }
    assert OwnKeys(rest) by { PartOwn(rest, own); }
    CleanedKeys(first);
    CleanedKeys(rest);
    ErasedOwn(FindingsTold(lane, held, ops));
  }

  lemma PartOwn(part: seq<Finding>, rows: seq<Finding>)
    requires OwnKeys(rows) && forall f :: f in part ==> f in rows
    ensures OwnKeys(part)
  {
    hide OwnKey, ByteLen, Trim;
  }

  lemma ErasedOwn(rows: seq<Finding>)
    requires forall f :: f in rows ==> OwnKey(f.key) && ByteLen(f.key) <= MAX_ID_BYTES
    ensures ProperFindings(Erased(rows))
  {
    hide OwnKey, ByteLen;
    assert forall i :: 0 <= i < |rows| ==> rows[i] in rows;
  }

  lemma ErasedCleaned(rows: seq<Finding>, room: nat)
    ensures Erased(Cleaned(FirstRows(rows, room), CleanFinding)) == Cleaned(FirstRows(Erased(rows), room), CleanFinding)
  {
    hide Cleaned, CleanFinding, Nameless;
    CleanedErased(FirstRows(rows, room));
    assert Erased(FirstRows(rows, room)) == FirstRows(Erased(rows), room);
  }

  lemma {:induction false} CleanedErased(rows: seq<Finding>)
    ensures Erased(Cleaned(rows, CleanFinding)) == Cleaned(Erased(rows), CleanFinding)
  {
    hide Bounded, Lower;
    if rows != [] {
      var front, last := rows[..|rows| - 1], rows[|rows| - 1];
      CleanedErased(front);
      assert Erased(rows)[..|rows| - 1] == Erased(front) && Erased(rows)[|rows| - 1] == Nameless(last);
      hide Cleaned;
      assert Erased([last]) == [Nameless(last)];
      CleanedEnd(rows);
      CleanedEnd(Erased(rows));
      if CleanFinding(last).Some? {
        ErasedConcat(Cleaned(front, CleanFinding), [CleanFinding(last).value]);
      }
    }
  }

  lemma CleanedEnd(rows: seq<Finding>)
    requires rows != []
    ensures Cleaned(rows, CleanFinding)
         == Cleaned(rows[..|rows| - 1], CleanFinding)
            + match CleanFinding(rows[|rows| - 1]) case None => [] case Some(row) => [row]
  {
    hide CleanFinding;
  }

  lemma KeysApart(rows: seq<Finding>)
    requires ProperFindings(rows) && DistinctKeys(rows, FindingIdentity)
    ensures DistinctKeys(rows, FindingName)
  {
    hide OwnKey, ByteLen, FindingIdentity;
    ProperKeys(rows);
    KeysAlike(rows);
    DistinctNames(rows, FindingIdentity, FindingName);
  }

  /** Delta rounds refine full re-emission: as long as the missing rows of the last
      round fit, the evidence and coverage its readers see are the last row ever sent
      under each identity, exactly when each last word of the earlier rounds was read,
      repeats what was, or is overridden by this round. */
  lemma DeltaRoundsRefineReemission(lane: Lane, rounds: seq<seq<Operation>>, ops: seq<Operation>)
    requires AllFold(lane, rounds) && Folded(lane, ops, true).Some?
    requires RoomForAll(CanonicalAll(ops), Held(lane, rounds))
    ensures var shown, said, own := Shown(lane, Held(lane, rounds), ops), Said(lane, rounds), Own(lane, ops);
            && (ByKey(shown.evidence, EvidenceId) == ByKey(Rows(said.evidence) + own.evidence, EvidenceId)
                <==> LastWordsStand(said.evidence + AllRead(own.evidence), EvidenceId))
            && (ByKey(shown.coverage, LayerName) == ByKey(Rows(said.coverage) + own.coverage, LayerName)
                <==> LastWordsStand(said.coverage + AllRead(own.coverage), LayerName))
  {
    hide Folded, Own, Held, Shown, Said, ByKey, DistinctKeys, RoomForAll, CanonicalAll, ProperEvidence, LastWordsStand,
         Rows, ReadRows, Fixed;
    var held, said, own := Held(lane, rounds), Said(lane, rounds), Own(lane, ops);
    EvidenceIsLastWritten(lane, rounds);
    CoverageIsLastWritten(lane, rounds);
    LayersApart(held.coverage);
    EvidenceShown(lane, held, ops);
    CoverageShown(lane, held, ops);
    OverriddenExactly(said.evidence, own.evidence, EvidenceId);
    OverriddenExactly(said.coverage, own.coverage, LayerName);
  }

  /** The same for findings, while they keep their names. */
  lemma DeltaFindingsRefineReemission(lane: Lane, rounds: seq<seq<Operation>>, ops: seq<Operation>)
    requires AllFold(lane, rounds) && Folded(lane, ops, true).Some?
    requires FindingsKeepTheirNames(lane, rounds) && WellKeyed(ops)
    requires RoomForAll(CanonicalAll(ops), Held(lane, rounds))
    ensures var shown, said, own := Shown(lane, Held(lane, rounds), ops), Said(lane, rounds), Own(lane, ops);
            ByKey(Erased(shown.findings), FindingName) == ByKey(Rows(said.findings) + Erased(own.findings), FindingName)
            <==> LastWordsStand(said.findings + AllRead(Erased(own.findings)), FindingName)
  {
    hide Folded, Own, Held, Shown, Said, ByKey, DistinctKeys, OwnKey, ByteLen, NamesFree, RoomForAll, Erased, CanonicalAll,
         FindingIdentity, ProperFindings, LastWordsStand, Rows, ReadRows, Fixed, WellKeyed;
    var held, said, own := Held(lane, rounds), Said(lane, rounds), Own(lane, ops);
    FindingsStayProper(lane, rounds);
    FindingsAreLastWritten(lane, rounds);
    KeysApart(held.findings);
    FindingsShown(lane, held, ops);
    OverriddenExactly(said.findings, Erased(own.findings), FindingName);
  }

  // ---- A condition read off each round before it is sent ----

  lemma {:induction false} EvidenceCount(s: Restoring, rows: seq<Evidence>, sent: set<string>)
    ensures |AllEvidence(s, rows, sent).records.evidence| <= |s.records.evidence| + |rows|
    ensures AllEvidence(s, rows, sent).records.coverage == s.records.coverage
    ensures AllEvidence(s, rows, sent).records.findings == s.records.findings
    decreases |rows|
  {
    if rows != [] {
      EvidenceCount(s, rows[..|rows| - 1], sent);
      hide Fits;
    }
  }

  lemma {:induction false} CoverageCount(s: Restoring, rows: seq<Coverage>, sent: set<string>)
    ensures |AllCoverage(s, rows, sent).records.coverage| <= |s.records.coverage| + |rows|
    ensures AllCoverage(s, rows, sent).records.evidence == s.records.evidence
    ensures AllCoverage(s, rows, sent).records.findings == s.records.findings
    decreases |rows|
  {
    if rows != [] {
      CoverageCount(s, rows[..|rows| - 1], sent);
      hide Fits, CoverageIdentity, CarriedOperationId;
    }
  }

  lemma {:induction false} FindingsCount(s: Restoring, rows: seq<Finding>, sent: seq<Finding>)
    ensures |AllFindings(s, rows, sent).records.findings| <= |s.records.findings| + |rows|
    ensures AllFindings(s, rows, sent).records.evidence == s.records.evidence
    ensures AllFindings(s, rows, sent).records.coverage == s.records.coverage
    decreases |rows|
  {
    if rows != [] {
      FindingsCount(s, rows[..|rows| - 1], sent);
      hide Fits, Answered, RestoredFindingId, FindingKey;
    }
  }

  lemma BackNoMore(ops: seq<Operation>, held: Ledger)
    ensures var r := PutBack(ops, held);
            |r.evidence| <= |held.evidence| && |r.coverage| <= |held.coverage| && |r.findings| <= |held.findings|
  {
    hide AllEvidence, AllCoverage, AllFindings, SentEvidence, SentCoverage, SentFindings;
    var zero := Opening(ops);
    var one := AllEvidence(zero, held.evidence, SentEvidence(ops));
    EvidenceCount(zero, held.evidence, SentEvidence(ops));
    CoverageCount(one, held.coverage, SentCoverage(ops));
    FindingsCount(AllCoverage(one, held.coverage, SentCoverage(ops)), held.findings, SentFindings(ops));
  }

  /** What is held and what the round sends are together within the limits. */
  ghost predicate RoundFits(lane: Lane, held: Ledger, ops: seq<Operation>)
    requires Folded(lane, ops, true).Some?
  {
    var own := Own(lane, ops);
    && |held.evidence| + |own.evidence| <= Sanitize.MAX_EVIDENCE
    && |held.coverage| + |own.coverage| <= Sanitize.MAX_COVERAGE
    && |held.findings| + |own.findings| <= Sanitize.MAX_FINDINGS
  }

  ghost predicate RoundsFit(lane: Lane, rounds: seq<seq<Operation>>)
    requires AllFold(lane, rounds)
  {
    forall k :: 0 <= k < |rounds| ==> RoundFits(lane, Held(lane, rounds[..k]), rounds[k])
  }

  lemma {:induction false} UtteredInRoom<T>(own: seq<T>, room: nat, clean: T -> Option<T>)
    requires |own| <= room
    ensures AllHeard(Uttered(own, room, clean))
  {
    if own != [] {
      UtteredInRoom(own[..|own| - 1], room, clean);
    }
  }

  lemma {:induction false} AllIsRead(lane: Lane, rounds: seq<seq<Operation>>)
    requires AllFold(lane, rounds) && RoundsFit(lane, rounds)
    ensures AllHeard(Said(lane, rounds).evidence) && AllHeard(Said(lane, rounds).coverage)
  {
    hide AllHeard, Folded, Own, Held, PutBack, CanonicalAll, Uttered, CleanEvidence, CleanCoverage, CleanFinding, Cleaned, Erased;
    if rounds == [] {
      NothingHeard<Evidence>();
      NothingHeard<Coverage>();
    } else {
      var front, ops := rounds[..|rounds| - 1], rounds[|rounds| - 1];
      forall k | 0 <= k < |rounds| ensures rounds[..k] == if k < |front| then front[..k] else front {}
      AllIsRead(lane, front);
      var held, own := Held(lane, front), Own(lane, ops);
      var back := PutBack(CanonicalAll(ops), held);
      assert RoundFits(lane, held, ops);
      BackNoMore(CanonicalAll(ops), held);
      UtteredInRoom(own.evidence, Room(Sanitize.MAX_EVIDENCE, back.evidence), CleanEvidence);
      UtteredInRoom(own.coverage, Room(Sanitize.MAX_COVERAGE, back.coverage), CleanCoverage);
      var before, now := Said(lane, front), Spoken(lane, held, ops);
      HeardConcat(before.evidence, now.evidence);
      HeardConcat(before.coverage, now.coverage);
    }
  }

  lemma NothingHeard<T>()
    ensures AllHeard<T>([])
  {
  }

  /** As long as, in every round, what is held and what is sent are together within the
      limits, the ledger is the last row sent on everything. */
  lemma NothingSentIsLost(lane: Lane, rounds: seq<seq<Operation>>)
    requires AllFold(lane, rounds) && RoundsFit(lane, rounds)
    ensures ByKey(Held(lane, rounds).evidence, EvidenceId) == ByKey(Rows(Said(lane, rounds).evidence), EvidenceId)
    ensures ByKey(Held(lane, rounds).coverage, LayerName) == ByKey(Rows(Said(lane, rounds).coverage), LayerName)
    ensures FindingsKeepTheirNames(lane, rounds) ==>
              ByKey(Held(lane, rounds).findings, FindingName) == ByKey(Rows(Said(lane, rounds).findings), FindingName)
  {
    hide AllHeard, Held, Said, ByKey, Rows, ReadRows, RoundsFit, FindingsKeepTheirNames, EvidenceKeeps, CoverageKeeps, LastWordsStand;
    AllIsRead(lane, rounds);
    HeardStands(Said(lane, rounds).evidence, EvidenceId);
    HeardStands(Said(lane, rounds).coverage, LayerName);
    EvidenceIsLastWritten(lane, rounds);
    CoverageIsLastWritten(lane, rounds);
    if FindingsKeepTheirNames(lane, rounds) { NoFindingIsLost(lane, rounds); }
  }

  lemma PartOverridesNothing<T>(held: seq<T>, part: seq<T>, name: T -> string)
    requires DistinctKeys(held, name) && forall x :: x in part ==> x in held
    ensures ByKey(held, name) + ByKey(part, name) == ByKey(held, name)
  {
    hide ByKey, DistinctKeys;
    ByKeyNames(held, name);
    ByKeyNames(part, name);
    forall k | k in ByKey(part, name) ensures k in ByKey(held, name) && ByKey(held, name)[k] == ByKey(part, name)[k] {
      TheRow(held, name, ByKey(part, name)[k]);
    }
  }

  /** With names free and everything within the limit, a round's findings are added to
      the ledger and nothing else is. */
  lemma RoundOfFindings(lane: Lane, held: Ledger, ops: seq<Operation>)
    requires Folded(lane, ops, true).Some? && WellKeyed(ops) && NamesFree(CanonicalAll(ops), held)
    requires ProperFindings(held.findings) && FindingsKeep(held.findings) && RoundFits(lane, held, ops)
    ensures ByKey(Kept(held, Shown(lane, held, ops)).findings, FindingName)
         == ByKey(held.findings, FindingName) + ByKey(Rows(Spoken(lane, held, ops).findings), FindingName)
  {
    hide Folded, Own, PutBack, CanonicalAll, OwnKey, ByteLen, WellKeyed, NamesFree, CleanFinding, Cleaned, FindingName,
         Kept, Shown, DistinctKeys, Erased, ByKey, FindingIdentity, Uttered, Rows, ReadRows, RoundNamed;
    var back, own, limit := PutBack(CanonicalAll(ops), held).findings, Own(lane, ops).findings, Sanitize.MAX_FINDINGS;
    RoundStaysProper(lane, held, ops);
    FindingsKept(lane, held, ops);
    BackNoMore(CanonicalAll(ops), held);
    FindingsFromHeld(CanonicalAll(ops), held);
    FixedCleaned(back, CleanFinding);
    AlreadyErased(back);
    ErasedConcat(back, Cleaned(own, CleanFinding));
    ByKeyConcat(back, Erased(Cleaned(own, CleanFinding)), FindingName);
    KeysApart(held.findings);
    PartOverridesNothing(held.findings, back, FindingName);
    CleanedErased(own);
    SpokenRows(lane, held, ops);
    assert FindingsTold(lane, held, ops) == back + Cleaned(own, CleanFinding);
  }

  lemma SpokenRows(lane: Lane, held: Ledger, ops: seq<Operation>)
    requires Folded(lane, ops, true).Some?
    ensures Rows(Spoken(lane, held, ops).findings) == Cleaned(Erased(Own(lane, ops).findings), CleanFinding)
  {
    hide Folded, Own, Erased, CanonicalAll, CleanFinding, Uttered, Cleaned, PutBack, Rows;
    var back, own, limit := PutBack(CanonicalAll(ops), held).findings, Own(lane, ops).findings, Sanitize.MAX_FINDINGS;
    var first := Cleaned(FirstRows(Erased(back), limit), CleanFinding);
    AllReadRows(first);
    UtteredRows(Erased(own), Room(limit, back), CleanFinding);
    RowsConcat(AllReturned(first), Uttered(Erased(own), Room(limit, back), CleanFinding));
    assert [] + Cleaned(Erased(own), CleanFinding) == Cleaned(Erased(own), CleanFinding);
  }

  lemma {:induction false} NoFindingIsLost(lane: Lane, rounds: seq<seq<Operation>>)
    requires AllFold(lane, rounds) && RoundsFit(lane, rounds) && FindingsKeepTheirNames(lane, rounds)
    ensures ByKey(Held(lane, rounds).findings, FindingName) == ByKey(Rows(Said(lane, rounds).findings), FindingName)
  {
    hide Folded, Own, Kept, Shown, OwnKey, ByteLen, WellKeyed, NamesFree, CanonicalAll, FindingsKeep, ByKey, Spoken,
         RoundFits, FindingName, Rows;
    if rounds == [] {
      NoRows<Finding>(FindingName);
      NothingRead<Finding>();
    } else {
      var front, ops := rounds[..|rounds| - 1], rounds[|rounds| - 1];
      forall k | 0 <= k < |rounds| ensures rounds[..k] == if k < |front| then front[..k] else front {}
      var held := Held(lane, front);
      NoFindingIsLost(lane, front);
      FindingsStayProper(lane, front);
      FindingsAreRead(lane, front);
      RoundOfFindings(lane, held, ops);
      RowsConcat(Said(lane, front).findings, Spoken(lane, held, ops).findings);
      ByKeyConcat(Rows(Said(lane, front).findings), Rows(Spoken(lane, held, ops).findings), FindingName);
    }
  }

  lemma LayersApart(rows: seq<Coverage>)
    requires CoverageKeeps(rows)
    ensures DistinctKeys(rows, LayerName)
  {
    hide Fixed;
    OneSpelling(rows);
    DistinctNames(rows, CoverageLayer, LayerName);
  }
}
