/** What the order of a stream decides: nothing but the order of its own lists, as
    long as the completion stays last. */
module FoldOrder {
  import opened Options
  import opened Text
  import opened Investigation
  import opened Fold
  import opened FoldSpec

  /** The last element of one ordering stands somewhere in any other. */
  lemma FindLast<T>(front: seq<T>, x: T, b: seq<T>) returns (k: nat)
    requires multiset(front + [x]) == multiset(b)
    ensures k < |b| && b[k] == x && multiset(front) == multiset(b[..k] + b[k + 1..])
    ensures b == b[..k] + ([x] + b[k + 1..])
  {
    assert x in multiset(front + [x]);
    k :| 0 <= k < |b| && b[k] == x;
    assert b == b[..k] + ([x] + b[k + 1..]);
    var all, rest := multiset(front), multiset(b[..k] + b[k + 1..]);
    assert multiset(b) == multiset(b[..k]) + (multiset{x} + multiset(b[k + 1..])) == rest + multiset{x};
    assert multiset(front + [x]) == all + multiset{x};
    assert all == (all + multiset{x}) - multiset{x} == (rest + multiset{x}) - multiset{x} == rest;
  }

  lemma {:induction false} PayloadsPermute<T>(a: seq<Operation>, b: seq<Operation>, pick: Operation -> seq<T>)
    requires multiset(a) == multiset(b)
    ensures multiset(Payloads(a, pick)) == multiset(Payloads(b, pick))
    decreases |a|
  {
    hide Payloads;
    if a == [] {
      assert multiset(b) == multiset{};
      assert b == [];
    } else {
      var front, x := a[..|a| - 1], a[|a| - 1];
      assert a == front + [x];
      var k := FindLast(front, x, b);
      PayloadsPermute(front, b[..k] + b[k + 1..], pick);
      PayloadsConcat(b[..k], b[k + 1..], pick);
      PayloadsConcat(b[..k], [x] + b[k + 1..], pick);
      PayloadsConcat([x], b[k + 1..], pick);
      PayloadsConcat(front, [x], pick);
    }
  }

  lemma SmallBag<T>(a: seq<T>, b: seq<T>)
    requires multiset(a) == multiset(b)
    ensures |a| == |b|
    ensures |a| <= 1 ==> a == b
  {
    assert |multiset(a)| == |a| && |multiset(b)| == |b|;
    if |a| == 1 {
      assert a[0] in multiset(b);
    }
  }

  lemma PayloadsAlike<T>(a: seq<Operation>, b: seq<Operation>, pick: Operation -> seq<T>)
    requires multiset(a) == multiset(b)
    ensures multiset(Payloads(a, pick)) == multiset(Payloads(b, pick))
    ensures |Payloads(a, pick)| == |Payloads(b, pick)|
    ensures |Payloads(a, pick)| <= 1 ==> Payloads(a, pick) == Payloads(b, pick)
  {
    PayloadsPermute(a, b, pick);
    SmallBag(Payloads(a, pick), Payloads(b, pick));
  }

  lemma {:induction false} DistinctByCount(ops: seq<Operation>)
    ensures |Ids(ops)| <= |ops|
    ensures DistinctIds(ops) <==> |Ids(ops)| == |ops|
  {
    hide Trim;
    if ops == [] {
      assert Ids(ops) == {};
    } else {
      hide Ids, DistinctIds;
      var front, x := ops[..|ops| - 1], ops[|ops| - 1];
      assert ops == front + [x];
      DistinctByCount(front);
      IdsSnoc(front, x);
    }
  }

  lemma MembersAlike(a: seq<Operation>, b: seq<Operation>)
    requires multiset(a) == multiset(b)
    ensures |a| == |b| && (forall op :: op in a <==> op in b)
  {
    assert |multiset(a)| == |a| && |multiset(b)| == |b|;
    forall op ensures op in a <==> op in b {
      assert op in a <==> op in multiset(a);
    }
  }

  lemma EachAlike(a: seq<Operation>, b: seq<Operation>)
    requires multiset(a) == multiset(b)
    ensures EachValid(a) <==> EachValid(b)
    ensures RecordsOk(a) <==> RecordsOk(b)
    ensures Ids(a) == Ids(b)
    ensures DistinctIds(a) <==> DistinctIds(b)
  {
    hide Valid, Trim, ValidEvidence;
    MembersAlike(a, b);
    DistinctByCount(a);
    DistinctByCount(b);
    assert EachValid(a) <==> forall op :: op in a ==> Valid(Operation(Trim(op.id), op.body));
    assert EachValid(b) <==> forall op :: op in b ==> Valid(Operation(Trim(op.id), op.body));
    assert Ids(a) == set op | op in a :: Trim(op.id);
    assert Ids(b) == set op | op in b :: Trim(op.id);
    hide DistinctIds;
  }

  /** With the completion last, no field is closed by position. */
  lemma LastCompletion(pre: seq<Operation>, done: Operation)
    requires done.body.CompleteEpisode?
    requires |Payloads(pre + [done], CompletionIn)| <= 1
    ensures CompletionAt(pre) == |pre|
    ensures Before(pre + [done]) == pre && After(pre + [done]) == []
    ensures Concluded(pre + [done]) == Some(done.body.completion)
  {
    ConcludedSnoc(pre, done);
    SplitNow(pre, done);
  }

  lemma ListsAlike(a: seq<Operation>, b: seq<Operation>, done: Operation)
    requires multiset(a) == multiset(b)
    ensures multiset(a + [done]) == multiset(b + [done])
  {
  }

  lemma OffersAlike(lane: Lane, a: seq<Operation>, b: seq<Operation>, done: Operation)
    requires done.body.CompleteEpisode?
    requires multiset(a) == multiset(b)
    requires |Payloads(a + [done], CompletionIn)| <= 1 && OffersOk(lane, a + [done])
    ensures |Payloads(b + [done], CompletionIn)| <= 1 && OffersOk(lane, b + [done])
    ensures DeclaredOffers(lane, a + [done]) == DeclaredOffers(lane, b + [done])
  {
    hide Payloads, CompletionAt, Before, After, Concluded;
    var x, y := a + [done], b + [done];
    PayloadsAlike(x, y, CompletionIn);
    PayloadsAlike(x, y, MemoryOfferIn);
    PayloadsAlike(x, y, PreferenceIn);
    PayloadsAlike(x, y, RuleIn);
    PayloadsAlike(x, y, AlertIn);
    PayloadsAlike(x, y, ApprovalIn);
    PayloadsAlike(x, y, GrantIn);
    LastCompletion(a, done);
    LastCompletion(b, done);
    NothingAfter(MemoryOfferIn);
    NothingAfter(PreferenceIn);
    NothingAfter(RuleIn);
    NothingAfter(AlertIn);
  }

  /** Permuting what comes before the completion changes neither whether the stream
      is accepted nor any scalar field. */
  lemma AcceptanceAlike(lane: Lane, a: seq<Operation>, b: seq<Operation>, done: Operation)
    requires done.body.CompleteEpisode?
    requires multiset(a) == multiset(b)
    requires Acceptable(lane, a + [done])
    ensures Acceptable(lane, b + [done])
    ensures DeclaredOffers(lane, a + [done]) == DeclaredOffers(lane, b + [done])
    ensures DeclaredWork(a + [done]) == DeclaredWork(b + [done])
    ensures multiset(ScheduleList(a + [done])) == multiset(ScheduleList(b + [done]))
  {
    hide Payloads, EachValid, RecordsOk, DistinctIds, Ids, CompletionAt, Before, After, Concluded, OffersOk,
         DeclaredOffers;
    var x, y := a + [done], b + [done];
    EachAlike(x, y);
    OffersAlike(lane, a, b, done);
    PayloadsAlike(x, y, MemoryIn);
    PayloadsAlike(x, y, IncidentIn);
    PayloadsAlike(x, y, EngineeringIn);
    PayloadsAlike(x, y, TaskIn);
    PayloadsAlike(a, b, ScheduleIn);
    LastCompletion(a, done);
    LastCompletion(b, done);
    NothingAfter(ScheduleIn);
    SmallBag(ScheduleList(x), ScheduleList(y));
  }

  lemma NothingAfter<T>(pick: Operation -> seq<T>)
    ensures Payloads([], pick) == []
  {
  }

  /** The two results agree field by field, lists as bags. */
  ghost predicate SameUpToOrder(p: Projection, q: Projection) {
    && p.reply.(visuals := []) == q.reply.(visuals := [])
    && multiset(p.reply.visuals) == multiset(q.reply.visuals)
    && multiset(p.records.evidence) == multiset(q.records.evidence)
    && multiset(p.records.coverage) == multiset(q.records.coverage)
    && multiset(p.records.findings) == multiset(q.records.findings)
    && multiset(p.records.contents) == multiset(q.records.contents)
    && p.offers == q.offers && p.work == q.work
    && multiset(Schedulings(p)) == multiset(Schedulings(q))
  }

  /** The primary schedule offer and the extra ones, as one list. */
  function Schedulings(p: Projection): seq<ScheduleOffer> {
    (if p.schedules.primary.Some? then [p.schedules.primary.value] else []) + p.schedules.more
  }

  lemma SchedulingsDeclared(lane: Lane, ops: seq<Operation>)
    ensures Schedulings(Declared(lane, ops)) == ScheduleList(ops)
  {
    hide ScheduleList, DeclaredReply, DeclaredRecords, DeclaredOffers, DeclaredWork;
    var all := ScheduleList(ops);
    if all != [] {
      assert all == [all[0]] + all[1..];
    }
  }

  lemma DeclaredAlike(lane: Lane, a: seq<Operation>, b: seq<Operation>, done: Operation)
    requires done.body.CompleteEpisode?
    requires multiset(a) == multiset(b)
    requires Acceptable(lane, a + [done])
    ensures SameUpToOrder(Declared(lane, a + [done]), Declared(lane, b + [done]))
  {
    hide Payloads, Concluded, Acceptable, ScheduleList, DeclaredOffers, DeclaredWork, DeclaredSchedules;
    var x, y := a + [done], b + [done];
    AcceptanceAlike(lane, a, b, done);
    PayloadsAlike(x, y, MemoryIn);
    PayloadsAlike(x, y, VisualIn);
    PayloadsAlike(x, y, EvidenceIn);
    PayloadsAlike(x, y, CoverageIn);
    PayloadsAlike(x, y, FindingIn);
    PayloadsAlike(x, y, ContentsIn);
    OneConclusion(lane, a, done);
    OneConclusion(lane, b, done);
    SchedulingsDeclared(lane, x);
    SchedulingsDeclared(lane, y);
  }

  lemma OneConclusion(lane: Lane, pre: seq<Operation>, done: Operation)
    requires done.body.CompleteEpisode?
    requires Acceptable(lane, pre + [done])
    ensures Concluded(pre + [done]) == Some(done.body.completion)
    ensures |Payloads(pre + [done], CompletionIn)| == 1
    ensures |Payloads(pre + [done], MemoryIn)| <= 1
  {
    LastCompletion(pre, done);
    Snoc(pre, done, CompletionIn);
    hide EachValid, DistinctIds, RecordsOk, OffersOk, WorkOk, SchedulesOk;
  }

  /** A model may emit its operations in any order before the completion. */
  lemma OrderDoesNotMatter(lane: Lane, a: seq<Operation>, b: seq<Operation>, done: Operation)
    requires done.body.CompleteEpisode?
    requires multiset(a) == multiset(b)
    ensures Folded(lane, a + [done], true).Some? <==> Folded(lane, b + [done], true).Some?
    ensures Folded(lane, a + [done], true).Some? ==>
              SameUpToOrder(Folded(lane, a + [done], true).value.result, Folded(lane, b + [done], true).value.result)
  {
    hide Folded, Acceptable, Declared, Payloads, AppliedAll, SameUpToOrder;
    FoldExactly(lane, a + [done], true);
    FoldExactly(lane, b + [done], true);
    ListsAlike(a, b, done);
    MembersAlike(a + [done], b + [done]);
    PayloadsAlike(a + [done], b + [done], CompletionIn);
    if Acceptable(lane, a + [done]) {
      AcceptanceAlike(lane, a, b, done);
      DeclaredAlike(lane, a, b, done);
    }
    if Acceptable(lane, b + [done]) {
      AcceptanceAlike(lane, b, a, done);
    }
  }

  /** update_memory beats the completion's memory whichever of the two comes first. */
  lemma MemoryWins(lane: Lane, ops: seq<Operation>, at: nat, requireCompletion: bool)
    requires at < |ops| && ops[at].body.UpdateMemory?
    requires Folded(lane, ops, requireCompletion).Some?
    ensures Folded(lane, ops, requireCompletion).value.result.reply.memory == ops[at].body.memory
  {
    hide Folded, EachValid, DistinctIds, RecordsOk, OffersOk, WorkOk, SchedulesOk, Payloads, AppliedAll,
         DeclaredRecords, DeclaredOffers, DeclaredSchedules, DeclaredWork, Concluded;
    FoldExactly(lane, ops, requireCompletion);
    PayloadsAround(ops, at, MemoryIn);
  }
}
