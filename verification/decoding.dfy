/** What a decoded decision may hold, and what the host writes onto one: the enum repair
    and the restored records (internal/decision/decision.go,
    internal/decision/enforcement.go, internal/decision/partial_round.go). */
module Decoding {
  import opened Options
  import opened Text
  import opened Investigation
  import opened Fold
  import opened FoldSpec
  import opened PartialRound
  import opened Splice
  import opened Restoration
  import opened Refold
  import opened Decisions

  /** The decision a round with restored records ends in is the one its completed stream
      folds to: the same applied operations, the same rows, and nothing else changed. */
  lemma CompletedRefolds(lane: Lane, ops: seq<Operation>, held: Ledger, d: Decision)
    requires Folded(lane, ops, true).Some? && Proper(held)
    requires d.operations == CanonicalAll(ops) && d.applied == Folded(lane, ops, true).value.applied
    requires d.result == Folded(lane, ops, true).value.result
    ensures var r := PutBack(d.operations, held);
            var x, long := Completed(d, r), Folded(lane, Completed(d, r).operations, true);
            && (long.Some? <==> NoClash(ops, r.operations))
            && x == d.(operations := x.operations, applied := x.applied, result := d.result.(records := x.result.records))
            && (long.Some? ==>
                  x.applied == long.value.applied && SameRows(long.value.result.records, x.result.records)
                  && long.value.result == x.result.(records := long.value.result.records))
  {
    hide Folded, NoClash, Proper, SameRows, CanonicalAll, Restored, Inserted;
    var r := PutBack(d.operations, held);
    SplicingIsCoherent(lane, ops, held);
    SomethingApplied(lane, ops);
    if r.operations == [] { NothingRestored(lane, ops, held); }
    if Folded(lane, Staged(ops, held), true).Some? { StagedApplied(lane, ops, held); }
  }

  lemma SomethingApplied(lane: Lane, ops: seq<Operation>)
    requires Folded(lane, ops, true).Some?
    ensures Folded(lane, ops, true).value.applied != []
  {
    hide Folded, Acceptable, Declared, Applied;
    FoldExactly(lane, ops, true);
  }

  lemma NothingRestored(lane: Lane, ops: seq<Operation>, held: Ledger)
    requires Folded(lane, ops, true).Some? && Proper(held) && PutBack(CanonicalAll(ops), held).operations == []
    ensures PutBack(CanonicalAll(ops), held) == NOTHING && Staged(ops, held) == CanonicalAll(ops)
    ensures forall own :: Prepended(NOTHING, own) == own
    ensures forall s: seq<Operation> :: Inserted(s, []) == s
  {
    var canon := CanonicalAll(ops);
    RestoredSound(canon, held.evidence, held.coverage, held.findings);
    hide Restored, Folded, CanonicalAll, Proper, UsedIds, Checked, Fresh, Unshared, CompletionAt;
    InsertedNothing();
  }

  lemma InsertedNothing()
    ensures forall s: seq<Operation> :: Inserted(s, []) == s
  {
    hide CompletionAt;
    forall s: seq<Operation> ensures Inserted(s, []) == s {
      assert s == s[..CompletionAt(s)] + [] + s[CompletionAt(s)..];
    }
  }

  /** The enum repair touches the status and the verdict alone, leaves no alert verdict
      in an answer beside an alert assessment, and no verdict in a blocked one. */
  lemma VerdictRepaired(a: Assessment, alert: bool)
    ensures var n := NormalAssessment(a, alert);
            && n == a.(status := Trim(a.status), verdict := n.verdict)
            && (n.status == "blocked" ==> n.verdict == "")
            && (n.status == "decision_ready" && alert ==>
                  n.verdict !in {"confirmed_issue", "likely_issue", "not_issue", "unverified"}
                  && (n.verdict == "healthy" <==> Trim(a.verdict) in {"healthy", "not_issue"})
                  && (n.verdict == "degraded" <==> Trim(a.verdict) in {"degraded", "confirmed_issue", "likely_issue"})
                  && (n.verdict == "inconclusive" <==> Trim(a.verdict) in {"inconclusive", "unverified"}))
            && (n.status != "blocked" && n.verdict !in {"healthy", "degraded", "inconclusive"} ==> n.verdict == Trim(a.verdict))
            && (n.status !in {"blocked", "decision_ready"} || (n.status == "decision_ready" && !alert) ==>
                  n.verdict == Trim(a.verdict))
  {
    hide Trim;
  }

  /** Rewriting reaches the completions of a stream and nothing else in it. */
  predicate SameButCompletions(a: seq<Operation>, b: seq<Operation>) {
    |a| == |b| && forall i :: 0 <= i < |a| ==>
      a[i].id == b[i].id && (!a[i].body.CompleteEpisode? ==> a[i] == b[i])
      && (a[i].body.CompleteEpisode? ==> b[i].body.CompleteEpisode?)
  }

  /** The decision and its stream are repaired alike: a completion that said what the
      decision said says what it says afterwards, and the alert verdicts are read as
      verdicts only beside an alert assessment. */
  lemma RepairReachesTheStream(d: Decision)
    ensures var x := Normalized(d);
            && x == d.(result := d.result.(reply := d.result.reply.(assessment := x.result.reply.assessment)),
                       operations := x.operations, applied := x.applied)
            && x.result.reply.assessment.Some? == d.result.reply.assessment.Some?
            && SameButCompletions(d.operations, x.operations) && SameButCompletions(d.applied, x.applied)
            && (forall i :: 0 <= i < |d.operations| && d.operations[i].body.CompleteEpisode?
                            && d.operations[i].body.completion.assessment == d.result.reply.assessment ==>
                  x.operations[i].body.completion
                  == d.operations[i].body.completion.(assessment := x.result.reply.assessment))
    ensures d.result.reply.assessment.Some? ==>
              var was, now := d.result.reply.assessment.value, Normalized(d).result.reply.assessment.value;
              && now == was.(status := Trim(was.status), verdict := now.verdict)
              && (d.result.offers.alert.None? && now.status != "blocked" ==> now.verdict == Trim(was.verdict))
              && (d.result.offers.alert.Some? && now.status == "decision_ready" ==>
                    now.verdict !in {"confirmed_issue", "likely_issue", "not_issue", "unverified"})
  {
    hide Trim, NormalAssessment;
    if d.result.reply.assessment.Some? {
      VerdictRepaired(d.result.reply.assessment.value, d.result.offers.alert.Some?);
    }
  }

  predicate CompleteUpdate(u: Update) {
    && u.kind in {"deployment", "terraform"} && u.state in {"pending", "succeeded", "failed"}
    && u.incident != "" && Tight(u.incident) && u.reference != "" && Tight(u.reference) && ByteLen(u.reference) <= 300
    && u.summary != "" && Tight(u.summary) && ByteLen(u.summary) <= 1200
  }

  lemma UpdatesAreComplete(updates: seq<Update>)
    ensures match CheckedUpdates(updates)
            case None => true
            case Some(us) => |us| == |updates| <= 4 && forall i :: 0 <= i < |us| ==> CompleteUpdate(us[i])
  {
    hide Trim, ByteLen, Tight;
    forall u: Update ensures Tight(Trim(u.incident)) && Tight(Trim(u.reference)) && Tight(Trim(u.summary)) {
      TrimIsTight(u.incident);
      TrimIsTight(u.reference);
      TrimIsTight(u.summary);
    }
  }

  lemma NothingIsTight()
    ensures Tight("") && Trim("") == "" && ByteLen("") == 0
  {
    TrimFixed("");
    AsciiBytes("");
  }

  /** A decoded decision does one thing. Only a reply carries anything to say or offer,
      only a reaction names one, only an incident has a title, and it fits; an update is
      known, complete and within its limits. */
  lemma DecodedIsExclusive(rules: Rules, d: Decision)
    ensures match Decoded(rules, d)
            case None => true
            case Some(x) =>
              && x.action in {"ignore", "reply", "escalate", "react", "incident"} && x.attention.wellFormed
              && (x.reaction != "" ==> x.action == "react")
              && (x.title != "" <==> x.action == "incident") && ByteLen(x.title) <= 200 && Tight(x.title)
              && (x.pullRequest != "" ==> x.action == "reply")
              && (x.action == "escalate" ==> x.reason != "" && Tight(x.reason))
              && (x.action != "reply" ==>
                    x.result == EMPTY.(records := x.result.records, offers := EMPTY.offers.(grant := x.result.offers.grant),
                                       reply := EMPTY.reply.(memory := x.result.reply.memory,
                                                             assessment := x.result.reply.assessment)))
              && (x.result.reply.assessment.Some? && x.action != "reply" ==>
                    x.action == "ignore" && x.result.reply.assessment.value.status == "blocked"
                    && x.result.reply.assessment.value.recheck.Some?)
              && (x.updates != [] ==> x.action in {"reply", "ignore"}) && |x.updates| <= 4
              && forall i :: 0 <= i < |x.updates| ==> CompleteUpdate(x.updates[i])
  {
    hide Trim, ByteLen, ReadOperations, Normalized, Tight, CompleteUpdate;
    NothingIsTight();
    if ReadOperations(d).Some? {
      var read := Normalized(ReadOperations(d).value);
      TrimIsTight(read.title);
      TrimIsTight(read.reason);
      if Acted(rules, read).Some? { UpdatesAreComplete(Acted(rules, read).value.updates); }
    }
    hide CheckedUpdates;
  }
}
