/** A decision written to the database and read back. */
module Persistence {
  import opened Options
  import opened Text
  import opened Investigation
  import opened Fold
  import opened FoldSpec
  import opened Refold
  import opened Rounds
  import opened Decisions

  /** The reply fields a rewrite of the completion reaches. */
  function Dressed(p: Projection, how: Rewrite): Projection {
    match how
    case Normalize(alert) => p.(reply := p.reply.(assessment := NormalOption(p.reply.assessment, alert)))
    case Rephrase(message, followups) => p.(reply := p.reply.(message := message, followups := followups))
  }

  predicate Sayable(how: Rewrite) {
    how.Rephrase? ==> !Blank(how.message)
  }

  /** The state of the same fold over the rewritten stream. */
  function Twin(s: State, how: Rewrite): State {
    s.(result := if s.completed then Dressed(s.result, how) else s.result, applied := RewrittenAll(s.applied, how))
  }

  lemma RewrittenAppend(ops: seq<Operation>, op: Operation, how: Rewrite)
    ensures RewrittenAll(ops + [op], how) == RewrittenAll(ops, how) + [RewrittenOp(op, how)]
  {
    hide RewrittenOp;
  }

  lemma ValidCompletion(id: string, c: Completion)
    ensures Valid(Operation(id, CompleteEpisode(c))) <==> ValidId(id) && !Blank(c.message)
  {
    hide ValidId, Blank, ValidEvidenceShape, ValidCoverage, ValidFinding;
  }

  lemma RewrittenValid(op: Operation, how: Rewrite)
    requires Sayable(how) && Valid(op)
    ensures Valid(RewrittenOp(op, how))
  {
    hide Valid, ValidId, Blank, NormalOption;
    if op.body.CompleteEpisode? {
      ValidCompletion(op.id, op.body.completion);
      ValidCompletion(op.id, Rewritten(op.body.completion, how));
    }
  }

  lemma TwinProject(lane: Lane, s: State, op: Operation, how: Rewrite)
    requires Project(lane, s.result, s.completed, s.memoryUpdated, op).Some?
    ensures var p := Project(lane, s.result, s.completed, s.memoryUpdated, op).value;
            Project(lane, Twin(s, how).result, s.completed, s.memoryUpdated, RewrittenOp(op, how))
            == Some(if s.completed || op.body.CompleteEpisode? then Dressed(p, how) else p)
  {
    hide ValidEvidence, FindingKey, NormalOption;
  }

  lemma AppliedRewritten(op: Operation, how: Rewrite)
    ensures Applied(RewrittenOp(op, how)) == RewrittenOp(Applied(op), how)
    ensures RewrittenOp(op, how).id == op.id
    ensures RewrittenOp(op, how).body.UpdateMemory? == op.body.UpdateMemory?
    ensures RewrittenOp(op, how).body.CompleteEpisode? == op.body.CompleteEpisode?
    ensures RewrittenOp(Operation(Trim(op.id), op.body), how) == Operation(Trim(op.id), RewrittenOp(op, how).body)
  {
    hide Trim, FindingKey, Rewritten;
  }

  lemma TwinStep(lane: Lane, s: State, op: Operation, how: Rewrite)
    requires Sayable(how) && Step(lane, s, op).Some?
    ensures Step(lane, Twin(s, how), RewrittenOp(op, how)) == Some(Twin(Step(lane, s, op).value, how))
  {
    hide Valid, Trim, Applied, RewrittenOp, Project, Dressed, RewrittenAll;
    var read := Operation(Trim(op.id), op.body);
    AppliedRewritten(op, how);
    RewrittenValid(read, how);
    TwinProject(lane, s, read, how);
    RewrittenAppend(s.applied, Applied(op), how);
  }

  lemma {:induction false} TwinRun(lane: Lane, s: State, ops: seq<Operation>, how: Rewrite)
    requires Sayable(how) && Run(lane, s, ops).Some?
    ensures Run(lane, Twin(s, how), RewrittenAll(ops, how)) == Some(Twin(Run(lane, s, ops).value, how))
    decreases |ops|
  {
    hide Step, RewrittenOp, Twin, Sayable;
    if ops != [] {
      TwinStep(lane, s, ops[0], how);
      assert RewrittenAll(ops, how)[1..] == RewrittenAll(ops[1..], how);
      TwinRun(lane, Step(lane, s, ops[0]).value, ops[1..], how);
    }
  }

  /** Rewriting the completion through the shared pointer changes the refolded reply
      in the same way, and nothing else. */
  lemma FoldRewritten(lane: Lane, ops: seq<Operation>, how: Rewrite)
    requires Sayable(how) && Folded(lane, ops, true).Some?
    ensures var s := Folded(lane, ops, true).value;
            Folded(lane, RewrittenAll(ops, how), true)
            == Some(s.(result := Dressed(s.result, how), applied := RewrittenAll(s.applied, how)))
  {
    hide Run, Dressed, RewrittenOp, Sayable;
    assert RewrittenAll([], how) == [];
    assert Twin(START, how) == START;
    TwinRun(lane, START, ops, how);
  }

  lemma NormalTwice(a: Option<Assessment>, alert: bool)
    ensures NormalOption(NormalOption(a, alert), alert) == NormalOption(a, alert)
  {
    hide Trim;
    if a.Some? {
      TrimTwice(a.value.status);
      TrimTwice(a.value.verdict);
      FixedVerdicts();
    }
  }

  lemma FixedVerdicts()
    ensures Trim("degraded") == "degraded" && Trim("healthy") == "healthy" && Trim("inconclusive") == "inconclusive"
    ensures Trim("") == ""
  {
    hide Trim;
    TrimFixed("degraded");
    TrimFixed("healthy");
    TrimFixed("inconclusive");
    TrimFixed("");
  }

  // ---- The question a record_feedback operation asks ----

  lemma OccursInside(a: string, part: string, b: string)
    ensures Contains(a + part + b, part)
  {
    assert (a + part + b)[|a|..|a| + |part|] == part;
    assert OccursAt(a + part + b, part, |a|);
  }

  lemma AppendedDiffers(message: string, question: string)
    requires !Contains(message, question)
    ensures question != message && Trim(message) + "\n\n" + question != message
  {
    hide Contains, Trim;
    OccursInside("", question, "");
    assert "" + question + "" == question;
    OccursInside(Trim(message) + "\n\n", question, "");
    assert Trim(message) + "\n\n" + question + "" == Trim(message) + "\n\n" + question;
  }

  /** The message is left as it is exactly when it already asks everything. */
  lemma {:induction false} Unasked(message: string, ops: seq<Operation>)
    ensures WithFollowup(message, ops) == message <==> forall i :: 0 <= i < |ops| ==> !Asks(ops[i], message)
    decreases |ops|
  {
    hide Contains, Trim;
    if ops != [] {
      var rest := ops[1..];
      Unasked(message, rest);
      assert forall i :: 0 <= i < |rest| ==> rest[i] == ops[i + 1];
      if Asks(ops[0], message) {
        AppendedDiffers(message, Trim(ops[0].body.feedback.question));
      } else {
        hide Asks;
        assert forall i :: 0 < i < |ops| ==> ops[i] == rest[i - 1];
      }
    }
  }

  lemma {:induction false} FollowupRewritten(message: string, ops: seq<Operation>, how: Rewrite)
    ensures WithFollowup(message, RewrittenAll(ops, how)) == WithFollowup(message, ops)
    decreases |ops|
  {
    if ops != [] {
      hide Contains, Trim, Rewritten;
      assert RewrittenAll(ops, how)[1..] == RewrittenAll(ops[1..], how);
      FollowupRewritten(message, ops[1..], how);
    }
  }

  // ---- The streams that cross the database ----

  /** As decoded from JSON: a finding's operation id is not part of it. */
  ghost predicate OnWire(ops: seq<Operation>) {
    forall i :: 0 <= i < |ops| ==> OffTheWire(ops[i]) == ops[i]
  }

  lemma WireKept(ops: seq<Operation>, how: Rewrite)
    requires OnWire(ops)
    ensures OnWire(CanonicalAll(ops)) && OnWire(RewrittenAll(ops, how))
    ensures WireStream(ops) == ops
  {
    hide FindingKey, Trim, Rewritten;
  }

  lemma CanonicalRewritten(ops: seq<Operation>, how: Rewrite)
    ensures CanonicalAll(RewrittenAll(CanonicalAll(ops), how)) == RewrittenAll(CanonicalAll(ops), how)
  {
    hide FindingKey, Trim, Rewritten;
  }

  lemma RewrittenTwice(ops: seq<Operation>, alert: bool)
    ensures RewrittenAll(RewrittenAll(ops, Normalize(alert)), Normalize(alert)) == RewrittenAll(ops, Normalize(alert))
  {
    hide NormalOption;
    forall a { NormalTwice(a, alert); }
  }

  lemma TrimmedUpdateTwice(u: Update)
    ensures TrimmedUpdate(TrimmedUpdate(u)) == TrimmedUpdate(u)
  {
    hide Trim;
    TrimTwice(u.incident);
    TrimTwice(u.kind);
    TrimTwice(u.state);
    TrimTwice(u.reference);
    TrimTwice(u.summary);
  }

  lemma UpdatesTwice(updates: seq<Update>)
    requires CheckedUpdates(updates).Some?
    ensures CheckedUpdates(CheckedUpdates(updates).value) == CheckedUpdates(updates)
  {
    hide TrimmedUpdate, ValidUpdate;
    var once := CheckedUpdates(updates).value;
    forall i | 0 <= i < |once| ensures TrimmedUpdate(once[i]) == once[i] {
      TrimmedUpdateTwice(updates[i]);
    }
    assert seq(|once|, i requires 0 <= i < |once| => TrimmedUpdate(once[i])) == once;
  }

  // ---- Replies ----

  /** A decoded reply was read in the reply lane. */
  lemma ReadAsReply(rules: Rules, d: Decision)
    requires Decoded(rules, d).Some? && d.operations != [] && Decoded(rules, d).value.action == "reply"
    ensures ReadOperations(d) == Replied(d) && Replied(d).Some? && Blank(d.suppressed)
  {
    hide SilentWait, Suppressed, SilentMemory, Replied, Waits, HasMemoryUpdate, Blank, RewrittenAll, NormalOption,
         CheckedUpdates, Expected;
    QuietLanes(d);
  }

  lemma QuietLanes(d: Decision)
    ensures SilentWait(d).Some? ==> SilentWait(d).value.action == d.action
    ensures Suppressed(d).Some? ==> Suppressed(d).value.action == "ignore"
    ensures SilentMemory(d).Some? ==> SilentMemory(d).value.action == d.action
  {
    hide Folded, CanonicalAll, AllTaken, HasWait, WaitStream, Valid, SaysNothing;
  }

  /** The reply before the reply rules see it: folded, asked and normalized. */
  function Prepared(d: Decision): Projection
    requires Folded(Watch, d.operations, true).Some?
  {
    var s := Folded(Watch, d.operations, true).value;
    Dressed(Asked(s.result, s.applied), Normalize(s.result.offers.alert.Some?))
  }

  /** A record of the decision as a reply, with its completion normalized. */
  function AsReply(d: Decision): Decision
    requires Folded(Watch, d.operations, true).Some?
  {
    var s := Folded(Watch, d.operations, true).value;
    var how := Normalize(s.result.offers.alert.Some?);
    d.(action := "reply", result := Prepared(d), operations := RewrittenAll(CanonicalAll(d.operations), how),
       applied := RewrittenAll(s.applied, how))
  }

  lemma OnlyCompletion(lane: Lane, ops: seq<Operation>, i: nat)
    requires Folded(lane, ops, true).Some? && i < |ops| && ops[i].body.CompleteEpisode?
    ensures Folded(lane, ops, true).value.result.reply.assessment == ops[i].body.completion.assessment
  {
    hide Folded, Acceptable, Payloads, DeclaredRecords, DeclaredOffers, DeclaredSchedules, DeclaredWork, AppliedAll;
    FoldExactly(lane, ops, true);
    PayloadMember(ops, CompletionIn, ops[i], ops[i].body.completion);
  }

  lemma NothingToNormalize(lane: Lane, ops: seq<Operation>, alert: bool)
    requires Folded(lane, ops, true).Some? && Folded(lane, ops, true).value.result.reply.assessment.None?
    ensures RewrittenAll(CanonicalAll(ops), Normalize(alert)) == CanonicalAll(ops)
    ensures RewrittenAll(AppliedAll(ops), Normalize(alert)) == AppliedAll(ops)
  {
    hide Folded, Trim, FindingKey;
    forall i | 0 <= i < |ops|
      ensures RewrittenOp(CanonicalAll(ops)[i], Normalize(alert)) == CanonicalAll(ops)[i]
      ensures RewrittenOp(AppliedAll(ops)[i], Normalize(alert)) == AppliedAll(ops)[i]
    {
      if ops[i].body.CompleteEpisode? {
        OnlyCompletion(lane, ops, i);
      }
    }
  }

  /** Reading a stream in the reply lane and repairing its completion. */
  lemma RepliedAndNormalized(d: Decision)
    requires Folded(Watch, d.operations, true).Some?
    ensures Replied(d).Some? && Normalized(Replied(d).value) == AsReply(d)
  {
    hide Folded, CanonicalAll, RewrittenAll, AppliedAll, WithFollowup, NormalAssessment, Acceptable, Declared, Payloads;
    var s := Folded(Watch, d.operations, true).value;
    FoldExactly(Watch, d.operations, true);
    if s.result.reply.assessment.None? {
      NothingToNormalize(Watch, d.operations, s.result.offers.alert.Some?);
    }
  }

  /** What is left of a reply after the database: its stream and its routing. */
  lemma ReloadedReply(d: Decision)
    requires Folded(Watch, d.operations, true).Some? && OnWire(d.operations) && d.operations != []
    ensures Reloaded(AsReply(d)) == Decision("reply", "", "", "", d.attention, d.reason, d.suppressed, d.updates, EMPTY,
                                             AsReply(d).operations, [])
  {
    hide Folded, Prepared;
    var how := Normalize(Folded(Watch, d.operations, true).value.result.offers.alert.Some?);
    WireKept(d.operations, how);
    WireKept(CanonicalAll(d.operations), how);
    hide CanonicalAll, RewrittenAll, WireStream, OnWire;
    WireKept(RewrittenAll(CanonicalAll(d.operations), how), how);
  }

  /** The stream of a decoded reply refolds to the same reply. */
  lemma RefoldedReply(d: Decision)
    requires Folded(Watch, d.operations, true).Some?
    ensures var s := Folded(Watch, d.operations, true).value;
            var how := Normalize(s.result.offers.alert.Some?);
            Folded(Watch, AsReply(d).operations, true)
            == Some(s.(result := Dressed(s.result, how), applied := RewrittenAll(s.applied, how)))
  {
    hide Folded, CanonicalAll, RewrittenAll, Dressed, Prepared;
    var how := Normalize(Folded(Watch, d.operations, true).value.result.offers.alert.Some?);
    FoldedAgain(Watch, d.operations, true);
    FoldRewritten(Watch, CanonicalAll(d.operations), how);
  }

  lemma DressedAsked(p: Projection, ops: seq<Operation>, alert: bool)
    ensures var how := Normalize(alert);
            Dressed(Asked(Dressed(p, how), RewrittenAll(ops, how)), how) == Dressed(Asked(p, ops), how)
  {
    hide NormalOption, WithFollowup, RewrittenAll;
    FollowupRewritten(p.reply.message, ops, Normalize(alert));
    NormalTwice(p.reply.assessment, alert);
  }

  /** Decoding what was marshalled prepares the same reply again. */
  lemma PreparedAgain(d: Decision)
    requires Folded(Watch, d.operations, true).Some? && OnWire(d.operations) && d.operations != []
    ensures var back := Reloaded(AsReply(d));
            && Folded(Watch, back.operations, true).Some?
            && AsReply(back) == AsReply(d).(reaction := "", title := "", pullRequest := "")
  {
    var s := Folded(Watch, d.operations, true).value;
    var alert := s.result.offers.alert.Some?;
    ReloadedReply(d);
    RefoldedReply(d);
    DressedAsked(s.result, s.applied, alert);
    CanonicalRewritten(d.operations, Normalize(alert));
    RewrittenTwice(CanonicalAll(d.operations), alert);
    RewrittenTwice(s.applied, alert);
    hide Folded, CanonicalAll, RewrittenAll, Reloaded, WithFollowup, NormalOption;
  }

  lemma DecodedReply(rules: Rules, sent: Decision, d: Decision)
    requires sent.operations != [] && Decoded(rules, sent) == Some(d) && d.action == "reply"
    ensures Folded(Watch, sent.operations, true).Some?
    ensures d.operations == AsReply(sent).operations && d.applied == AsReply(sent).applied
    ensures rules.reply(Prepared(sent)) == Some(d.result)
    ensures CheckedUpdates(sent.updates) == Some(d.updates)
    ensures d == AsReply(sent).(result := d.result, updates := d.updates)
    ensures d.reaction == "" && d.title == "" && d.attention.wellFormed && Blank(d.suppressed)
  {
    hide Folded, RewrittenAll, CanonicalAll, CheckedUpdates, Prepared, NoReply, Blank;
    ReadAsReply(rules, sent);
    RepliedAndNormalized(sent);
    hide ReadOperations, Replied, Normalized;
    assert AsReply(sent).action == "reply";
  }

  /** Decoding a stream as an accepted reply. */
  lemma AcceptedReply(rules: Rules, back: Decision, p: Projection)
    requires back.operations != [] && back.action == "reply" && Blank(back.suppressed)
    requires Folded(Watch, back.operations, true).Some? && rules.reply(Prepared(back)) == Some(p)
    requires back.reaction == "" && back.title == "" && back.attention.wellFormed
    requires rules.pullRequest(back.pullRequest, Prepared(back).work)
    requires CheckedUpdates(back.updates) == Some(back.updates)
    ensures Decoded(rules, back) == Some(AsReply(back).(result := p))
  {
    hide Folded, RewrittenAll, CanonicalAll, CheckedUpdates, Prepared, NoReply, Blank;
    RepliedAndNormalized(back);
    assert ReadOperations(back) == Replied(back);
    hide ReadOperations, Replied, Normalized;
  }

  /** The reply rules never object to the absence of a pull request. */
  ghost predicate NoPullRequestIsFine(rules: Rules) {
    forall w: Work :: rules.pullRequest("", w)
  }

  /** Marshalling an accepted typed reply and decoding it again gives the same
      decision in every field but task_pull_request, which no operation carries. */
  lemma PersistenceRoundTrip(rules: Rules, sent: Decision, d: Decision)
    requires sent.operations != [] && OnWire(sent.operations) && NoPullRequestIsFine(rules)
    requires Decoded(rules, sent) == Some(d) && d.action == "reply"
    ensures Decoded(rules, Reloaded(d)) == Some(d.(pullRequest := ""))
    ensures Decoded(rules, Reloaded(d)) == Some(d) <==> d.pullRequest == ""
  {
    hide Decoded, Folded, RewrittenAll, CanonicalAll, CheckedUpdates, Prepared, OnWire, Blank, WireStream;
    DecodedReply(rules, sent, d);
    UpdatesTwice(sent.updates);
    var kept := sent.(updates := d.updates);
    PreparedAgain(kept);
    assert Prepared(kept) == Prepared(sent) by { SamePreparation(kept, sent); }
    assert Reloaded(d) == Reloaded(AsReply(kept));
    var back := Reloaded(d);
    assert Prepared(back) == AsReply(back).result == AsReply(kept).result;
    AcceptedReply(rules, back, d.result);
  }

  lemma SamePreparation(a: Decision, b: Decision)
    requires a.operations == b.operations && Folded(Watch, a.operations, true).Some?
    ensures Prepared(a) == Prepared(b)
  {
    hide Folded, Dressed, Asked;
  }

  /** Reading a host-rendered reply back gives the rendered message exactly when it
      asks every question a record_feedback operation needs asked. */
  lemma RenderedMessageRead(sent: Decision, message: string, followups: seq<string>)
    requires Folded(Watch, sent.operations, true).Some? && !Blank(message)
    ensures var how := Rephrase(message, followups);
            var back := sent.(operations := RewrittenAll(AsReply(sent).operations, how));
            && Folded(Watch, back.operations, true).Some?
            && (Prepared(back).reply.message == message
                <==> forall i :: 0 <= i < |AsReply(sent).applied| ==> !Asks(AsReply(sent).applied[i], message))
            && (Prepared(back).reply.message == message ==> Prepared(back) == Dressed(Prepared(sent), how))
            && (AsReply(back).operations == RewrittenAll(AsReply(sent).operations, how))
            && (AsReply(back).applied == RewrittenAll(AsReply(sent).applied, how))
  {
    var how := Rephrase(message, followups);
    var s := Folded(Watch, sent.operations, true).value;
    var alert := s.result.offers.alert.Some?;
    RefoldedReply(sent);
    FoldRewritten(Watch, AsReply(sent).operations, how);
    Unasked(message, AsReply(sent).applied);
    FollowupRewritten(message, AsReply(sent).applied, how);
    NormalTwice(s.result.reply.assessment, alert);
    TwoRewrites(CanonicalAll(sent.operations), alert, message, followups);
    TwoRewrites(s.applied, alert, message, followups);
    CanonicalTwice(sent.operations, Normalize(alert), how);
    hide Folded, CanonicalAll, RewrittenAll, WithFollowup, NormalOption, Blank, Asks;
  }

  lemma TwoRewrites(ops: seq<Operation>, alert: bool, message: string, followups: seq<string>)
    ensures var once := RewrittenAll(RewrittenAll(ops, Normalize(alert)), Rephrase(message, followups));
            RewrittenAll(once, Normalize(alert)) == once
  {
    hide NormalOption;
    forall a { NormalTwice(a, alert); }
  }

  lemma CanonicalTwice(ops: seq<Operation>, first: Rewrite, second: Rewrite)
    ensures var once := RewrittenAll(RewrittenAll(CanonicalAll(ops), first), second);
            CanonicalAll(once) == once
  {
    hide FindingKey, Trim, Rewritten;
  }

  /** A reply the host rendered over the model's, written through to the stream,
      survives the database whole when the reply rules take the rendered text as it
      is and it already asks every needed question. */
  lemma HostRenderedReplySurvives(
    rules: Rules, sent: Decision, d: Decision, message: string, followups: seq<string>)
    requires sent.operations != [] && OnWire(sent.operations) && NoPullRequestIsFine(rules)
    requires Decoded(rules, sent) == Some(d) && d.action == "reply" && !Blank(message)
    requires Folded(Watch, sent.operations, true).Some?
    requires rules.reply(Dressed(Prepared(sent), Rephrase(message, followups)))
             == Some(Rephrased(d, message, followups).result)
    requires forall i :: 0 <= i < |d.applied| ==> !Asks(d.applied[i], message)
    ensures Decoded(rules, Reloaded(Rephrased(d, message, followups)))
            == Some(Rephrased(d, message, followups).(pullRequest := ""))
  {
    hide Decoded, Folded, RewrittenAll, CanonicalAll, CheckedUpdates, Prepared, OnWire, Blank, WireStream, Asks, Dressed;
    var how, shown := Rephrase(message, followups), Rephrased(d, message, followups);
    DecodedReply(rules, sent, d);
    UpdatesTwice(sent.updates);
    RenderedMessageRead(sent, message, followups);
    RenderedOnWire(sent, how);
    var back := Reloaded(shown);
    var kept := sent.(operations := RewrittenAll(AsReply(sent).operations, how));
    SamePreparation(kept, back);
    SameReading(kept, back);
    AcceptedReply(rules, back, shown.result);
  }

  lemma RenderedOnWire(sent: Decision, how: Rewrite)
    requires Folded(Watch, sent.operations, true).Some? && OnWire(sent.operations)
    ensures WireStream(RewrittenAll(AsReply(sent).operations, how)) == RewrittenAll(AsReply(sent).operations, how)
  {
    hide Folded, RewrittenAll, CanonicalAll, OnWire, WireStream, Prepared;
    var once := Normalize(Folded(Watch, sent.operations, true).value.result.offers.alert.Some?);
    WireKept(sent.operations, once);
    WireKept(CanonicalAll(sent.operations), once);
    WireKept(AsReply(sent).operations, how);
    WireKept(RewrittenAll(AsReply(sent).operations, how), how);
  }

  lemma SameReading(a: Decision, b: Decision)
    requires a.operations == b.operations && Folded(Watch, a.operations, true).Some?
    ensures AsReply(a).operations == AsReply(b).operations && AsReply(a).applied == AsReply(b).applied
  {
    hide Folded, Prepared;
  }
}
