/** Splicing record operations into a stream that folds: when the longer stream
    still folds, and what it folds to. */
module Splice {
  import opened Options
  import opened Text
  import opened Investigation
  import opened Fold
  import opened FoldSpec
  import opened FoldOrder
  import opened PartialRound

  /** An operation fit to be spliced: a valid record under a trimmed identifier. */
  ghost predicate RecordOp(op: Operation) {
    && Tight(op.id) && Valid(op)
    && (op.body.RecordEvidence? || op.body.RecordCoverage? || op.body.RecordFinding?)
    && (op.body.RecordEvidence? ==> ValidEvidence(op.body.evidence))
  }

  ghost predicate RecordOps(ops: seq<Operation>) {
    && (forall i :: 0 <= i < |ops| ==> RecordOp(ops[i]))
    && (forall i, j :: 0 <= i < j < |ops| ==> ops[i].id != ops[j].id)
  }

  /** No spliced identifier is, once trimmed, already in the stream. */
  predicate NoClash(ops: seq<Operation>, insert: seq<Operation>) {
    forall i, j :: 0 <= i < |ops| && 0 <= j < |insert| ==> Trim(ops[i].id) != insert[j].id
  }

  lemma {:induction false} NoPayloads<T>(ops: seq<Operation>, pick: Operation -> seq<T>)
    requires forall i :: 0 <= i < |ops| ==> pick(ops[i]) == []
    ensures Payloads(ops, pick) == []
  {
    if ops != [] {
      NoPayloads(ops[..|ops| - 1], pick);
    }
  }

  lemma CutPayloads<T>(ops: seq<Operation>, at: nat, pick: Operation -> seq<T>)
    requires at <= |ops|
    ensures Payloads(ops, pick) == Payloads(ops[..at], pick) + Payloads(ops[at..], pick)
  {
    hide Payloads;
    Halves(ops, at);
    PayloadsConcat(ops[..at], ops[at..], pick);
  }

  lemma Halves<T>(s: seq<T>, at: nat)
    requires at <= |s|
    ensures s == s[..at] + s[at..]
  {
  }

  lemma InsertedPayloads<T>(ops: seq<Operation>, insert: seq<Operation>, pick: Operation -> seq<T>)
    ensures Payloads(Inserted(ops, insert), pick)
         == Payloads(ops[..CompletionAt(ops)], pick) + Payloads(insert, pick) + Payloads(ops[CompletionAt(ops)..], pick)
    ensures Payloads(insert, pick) == [] ==> Payloads(Inserted(ops, insert), pick) == Payloads(ops, pick)
  {
    hide Payloads, CompletionAt;
    var at := CompletionAt(ops);
    PayloadsConcat(ops[..at] + insert, ops[at..], pick);
    PayloadsConcat(ops[..at], insert, pick);
    CutPayloads(ops, at, pick);
  }

  lemma Pieces<T>(s: seq<T>, insert: seq<T>, at: nat)
    requires at <= |s|
    ensures var all := s[..at] + insert + s[at..];
            && |all| == |s| + |insert|
            && all[..at + |insert|] == s[..at] + insert
            && all[at + |insert|..] == s[at..]
            && (forall i :: 0 <= i < at ==> all[i] == s[i])
            && (forall i :: 0 <= i < |insert| ==> all[at + i] == insert[i])
            && (at < |s| ==> all[at + |insert|] == s[at] && all[at + |insert| + 1..] == s[at + 1..])
  {
  }

  /** The completion only moves to the right. */
  lemma InsertedSplit(ops: seq<Operation>, insert: seq<Operation>)
    requires forall i :: 0 <= i < |insert| ==> !insert[i].body.CompleteEpisode?
    ensures CompletionAt(Inserted(ops, insert)) == CompletionAt(ops) + |insert|
    ensures Before(Inserted(ops, insert)) == Before(ops) + insert
    ensures After(Inserted(ops, insert)) == After(ops)
  {
    var at := CompletionAt(ops);
    var all := Inserted(ops, insert);
    Pieces(ops, insert, at);
    forall i | 0 <= i < at + |insert| ensures !all[i].body.CompleteEpisode? {
      if at <= i {
        assert all[at + (i - at)] == insert[i - at];
      }
    }
    FirstCompletion(all, at + |insert|);
  }

  lemma InsertedPermutes(ops: seq<Operation>, insert: seq<Operation>)
    ensures multiset(Inserted(ops, insert)) == multiset(ops + insert)
  {
    hide CompletionAt;
    var at := CompletionAt(ops);
    Halves(ops, at);
    assert multiset(ops[..at] + insert + ops[at..]) == multiset(ops[..at]) + multiset(insert) + multiset(ops[at..]);
    assert multiset(ops + insert) == multiset(ops[..at] + ops[at..]) + multiset(insert);
  }

  lemma ConcatEach(a: seq<Operation>, b: seq<Operation>)
    ensures EachValid(a + b) <==> EachValid(a) && EachValid(b)
    ensures RecordsOk(a + b) <==> RecordsOk(a) && RecordsOk(b)
    ensures DistinctIds(a + b) <==>
              DistinctIds(a) && DistinctIds(b)
              && forall i, j :: 0 <= i < |a| && 0 <= j < |b| ==> Trim(a[i].id) != Trim(b[j].id)
  {
    hide Valid, Trim, ValidEvidence;
    var all := a + b;
    assert forall i :: 0 <= i < |a| ==> all[i] == a[i];
    assert forall j :: 0 <= j < |b| ==> all[|a| + j] == b[j];
    assert forall k :: |a| <= k < |all| ==> all[k] == b[k - |a|];
  }

  lemma RecordOpsTrimmed(insert: seq<Operation>)
    requires RecordOps(insert)
    ensures EachValid(insert) && DistinctIds(insert) && RecordsOk(insert)
    ensures forall j :: 0 <= j < |insert| ==> Trim(insert[j].id) == insert[j].id
    ensures forall j :: 0 <= j < |insert| ==> !insert[j].body.CompleteEpisode?
  {
    hide Valid, Trim, ValidEvidence, Tight;
    forall j | 0 <= j < |insert| ensures Trim(insert[j].id) == insert[j].id {
      TrimFixed(insert[j].id);
    }
    assert forall j :: 0 <= j < |insert| ==> Operation(Trim(insert[j].id), insert[j].body) == insert[j];
  }

  lemma RecordOpsSilent(insert: seq<Operation>)
    requires RecordOps(insert)
    ensures Payloads(insert, CompletionIn) == [] && Payloads(insert, MemoryIn) == []
    ensures Payloads(insert, VisualIn) == [] && Payloads(insert, ContentsIn) == []
    ensures Payloads(insert, MemoryOfferIn) == [] && Payloads(insert, PreferenceIn) == []
    ensures Payloads(insert, RuleIn) == [] && Payloads(insert, AlertIn) == []
    ensures Payloads(insert, ApprovalIn) == [] && Payloads(insert, GrantIn) == []
    ensures Payloads(insert, IncidentIn) == [] && Payloads(insert, EngineeringIn) == []
    ensures Payloads(insert, TaskIn) == [] && Payloads(insert, ScheduleIn) == []
  {
    hide Valid, Tight, ValidEvidence, Payloads;
    NoPayloads(insert, CompletionIn);
    NoPayloads(insert, MemoryIn);
    NoPayloads(insert, VisualIn);
    NoPayloads(insert, ContentsIn);
    NoPayloads(insert, MemoryOfferIn);
    NoPayloads(insert, PreferenceIn);
    NoPayloads(insert, RuleIn);
    NoPayloads(insert, AlertIn);
    NoPayloads(insert, ApprovalIn);
    NoPayloads(insert, GrantIn);
    NoPayloads(insert, IncidentIn);
    NoPayloads(insert, EngineeringIn);
    NoPayloads(insert, TaskIn);
    NoPayloads(insert, ScheduleIn);
  }

  lemma InsertedScalars(lane: Lane, ops: seq<Operation>, insert: seq<Operation>)
    requires RecordOps(insert)
    ensures ReplyOk(Inserted(ops, insert)) == ReplyOk(ops) && WorkOk(lane, Inserted(ops, insert)) == WorkOk(lane, ops)
    ensures DeclaredReply(Inserted(ops, insert)) == DeclaredReply(ops)
    ensures DeclaredWork(Inserted(ops, insert)) == DeclaredWork(ops)
    ensures Payloads(Inserted(ops, insert), CompletionIn) == Payloads(ops, CompletionIn)
    ensures Concluded(Inserted(ops, insert)) == Concluded(ops)
  {
    hide Payloads, RecordOp, CompletionAt, Inserted;
    RecordOpsSilent(insert);
    InsertedPayloads(ops, insert, CompletionIn);
    InsertedPayloads(ops, insert, MemoryIn);
    InsertedPayloads(ops, insert, VisualIn);
    InsertedPayloads(ops, insert, IncidentIn);
    InsertedPayloads(ops, insert, EngineeringIn);
    InsertedPayloads(ops, insert, TaskIn);
  }

  lemma InsertedOffers(lane: Lane, ops: seq<Operation>, insert: seq<Operation>)
    requires RecordOps(insert)
    ensures OffersOk(lane, Inserted(ops, insert)) == OffersOk(lane, ops)
    ensures DeclaredOffers(lane, Inserted(ops, insert)) == DeclaredOffers(lane, ops)
    ensures ScheduleList(Inserted(ops, insert)) == ScheduleList(ops)
  {
    hide Payloads, RecordOp, CompletionAt, Inserted, Before, After, Concluded, ReplyOk, WorkOk;
    RecordOpsSilent(insert);
    RecordOpsTrimmed(insert);
    InsertedScalars(lane, ops, insert);
    InsertedSplit(ops, insert);
    InsertedPayloads(ops, insert, MemoryOfferIn);
    InsertedPayloads(ops, insert, PreferenceIn);
    InsertedPayloads(ops, insert, RuleIn);
    InsertedPayloads(ops, insert, AlertIn);
    InsertedPayloads(ops, insert, ApprovalIn);
    InsertedPayloads(ops, insert, GrantIn);
    PayloadsConcat(Before(ops), insert, ScheduleIn);
  }

  lemma InsertedEach(ops: seq<Operation>, insert: seq<Operation>)
    requires RecordOps(insert)
    ensures EachValid(Inserted(ops, insert)) == EachValid(ops)
    ensures RecordsOk(Inserted(ops, insert)) == RecordsOk(ops)
    ensures DistinctIds(Inserted(ops, insert)) <==> DistinctIds(ops) && NoClash(ops, insert)
  {
    hide RecordOp, EachValid, DistinctIds, RecordsOk, Inserted, Trim;
    RecordOpsTrimmed(insert);
    InsertedPermutes(ops, insert);
    EachAlike(Inserted(ops, insert), ops + insert);
    ConcatEach(ops, insert);
  }

  /** Splicing records touches the record lists and nothing else, and the longer
      stream is accepted exactly when no spliced identifier is already taken. */
  lemma InsertedDeclared(lane: Lane, ops: seq<Operation>, insert: seq<Operation>)
    requires RecordOps(insert)
    ensures Acceptable(lane, Inserted(ops, insert)) <==> Acceptable(lane, ops) && NoClash(ops, insert)
    ensures Declared(lane, Inserted(ops, insert))
         == Declared(lane, ops).(records := DeclaredRecords(lane, Inserted(ops, insert)))
    ensures Payloads(Inserted(ops, insert), CompletionIn) == Payloads(ops, CompletionIn)
  {
    hide Payloads, EachValid, DistinctIds, RecordsOk, Inserted, NoClash, RecordOps, ReplyOk, OffersOk, WorkOk,
         ScheduleList, DeclaredReply, DeclaredWork, DeclaredOffers, DeclaredRecords;
    InsertedScalars(lane, ops, insert);
    InsertedOffers(lane, ops, insert);
    InsertedEach(ops, insert);
  }

  /** The spliced stream folds exactly when the round's own stream does, there is
      room, and no identifier is taken; a trimmed stream never clashes with
      identifiers the host made sure are unused. */
  lemma SplicedFold(lane: Lane, ops: seq<Operation>, insert: seq<Operation>, requireCompletion: bool)
    requires RecordOps(insert) && |ops| + |insert| <= MAX_OPERATIONS
    ensures Folded(lane, Inserted(ops, insert), requireCompletion).Some?
       <==> Folded(lane, ops, requireCompletion).Some? && NoClash(ops, insert)
    ensures var long, short := Folded(lane, Inserted(ops, insert), requireCompletion), Folded(lane, ops, requireCompletion);
            long.Some? ==>
              long.value.result == short.value.result.(records := DeclaredRecords(lane, Inserted(ops, insert)))
  {
    InsertedLength(ops, insert);
    hide Payloads, Acceptable, Inserted, NoClash, RecordOps, Declared, DeclaredRecords, Folded, AppliedAll;
    InsertedDeclared(lane, ops, insert);
    FoldExactly(lane, ops, requireCompletion);
    FoldExactly(lane, Inserted(ops, insert), requireCompletion);
  }

  lemma InsertedLength(ops: seq<Operation>, insert: seq<Operation>)
    ensures |Inserted(ops, insert)| == |ops| + |insert|
  {
  }
}
