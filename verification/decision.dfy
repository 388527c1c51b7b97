/** The decision a watch turn ends in: reading its operation stream, lane by lane,
    and the checks DecodeWatchDecision makes (internal/decision/decision.go,
    internal/decision/enforcement.go). */
module Decisions {
  import opened Options
  import opened Text
  import opened Investigation
  import opened Fold
  import opened PartialRound
  import opened Refold

  /** A scored attention assessment and whether ValidateAttentionAssessment takes it. */
  datatype Attention = Attention(scores: string, wellFormed: bool)

  datatype Update = Update(incident: string, kind: string, state: string, reference: string, summary: string)

  /** WatchDecision: what the envelope carries, the fields the fold may write, the
      stream, and the stream as applied. */
  datatype Decision = Decision(
    action: string, reaction: string, title: string, pullRequest: string, attention: Attention,
    reason: string, suppressed: string, updates: seq<Update>,
    result: Projection, operations: seq<Operation>, applied: seq<Operation>)

  /** The checks that look inside fields this model keeps opaque: the reply rules
      (which may rewrite the reply), the pull request offer, and reaction names. */
  datatype Rules = Rules(
    reply: Projection -> Option<Projection>, pullRequest: (string, Work) -> bool, reaction: string -> Option<string>)

  predicate HasWait(ops: seq<Operation>) {
    exists i :: 0 <= i < |ops| && ops[i].body.Event? && ops[i].body.kind == WaitExternal
  }

  predicate HasMemoryUpdate(ops: seq<Operation>) {
    exists i :: 0 <= i < |ops| && ops[i].body.UpdateMemory?
  }

  /** watchOperationCompletion: the assessment of the first completion. */
  function OperationCompletion(ops: seq<Operation>): Option<Assessment>
    decreases |ops|
  {
    if ops == [] then None
    else if ops[0].body.CompleteEpisode? then ops[0].body.completion.assessment
    else OperationCompletion(ops[1..])
  }

  predicate InProgress(a: Option<Assessment>) {
    a.Some? && a.value.verdict == "in_progress"
  }

  predicate Waits(ops: seq<Operation>) {
    HasWait(ops) && (OperationCompletion(ops).None? || InProgress(OperationCompletion(ops)))
  }

  /** The operations a silent wait keeps, the old completion it strips, and nothing else. */
  predicate WaitKeeps(body: Body) {
    || body.RecordEvidence? || body.RecordCoverage? || body.RecordFinding?
    || (body.Event? && body.kind in {PlanGoal, UpdateGoal, WaitExternal})
  }

  predicate WaitTakes(body: Body) {
    WaitKeeps(body) || (body.CompleteEpisode? && InProgress(body.completion.assessment))
  }

  predicate AllTaken(ops: seq<Operation>) {
    forall i :: 0 <= i < |ops| ==> WaitTakes(ops[i].body)
  }

  function WaitStream(ops: seq<Operation>): seq<Operation> {
    if ops == [] then []
    else
      var last := ops[|ops| - 1];
      WaitStream(ops[..|ops| - 1]) + if WaitKeeps(last.body) then [last] else []
  }

  /** Every field that would speak is cleared; what was learned stays. */
  function Unspoken(records: Records, memory: Memory): Projection {
    EMPTY.(records := records, reply := EMPTY.reply.(memory := memory))
  }

  /** ApplySilentWatchWaitOperations */
  function SilentWait(d: Decision): Option<Decision> {
    if !AllTaken(d.operations) || !HasWait(d.operations) then None
    else
      var kept := WaitStream(d.operations);
      match Folded(Quiet, kept, false)
      case None => None
      case Some(s) =>
        Some(d.(result := Unspoken(s.result.records, NO_MEMORY), operations := CanonicalAll(kept), applied := s.applied))
  }

  /** applySuppression */
  function Suppress(d: Decision): Decision {
    d.(action := "ignore", reaction := "", title := "", result := Unspoken(d.result.records, d.result.reply.memory))
  }

  /** ApplySuppressedWatchOperations */
  function Suppressed(d: Decision): Option<Decision> {
    match Folded(Quiet, d.operations, true)
    case None => None
    case Some(s) =>
      Some(Suppress(d.(result := Unspoken(s.result.records, s.result.reply.memory),
                       operations := CanonicalAll(d.operations), applied := s.applied)))
  }

  /** The fields a silent memory update may not be accompanied by. */
  predicate SaysNothing(p: Projection, updates: seq<Update>) {
    && Blank(p.reply.message) && p.reply.followups == [] && p.reply.visuals == [] && p.reply.assessment.None?
    && Blank(p.work.incidentTitle) && Blank(p.work.taskTitle)
    && p.records.evidence == [] && p.records.coverage == [] && p.records.findings == []
    && p.offers.memory.None? && p.offers.preference.None? && p.offers.rule.None?
    && p.offers.approval.None? && p.offers.alert.None?
    && p.schedules == Schedules(None, []) && updates == []
  }

  /** ApplySilentWatchMemoryOperation */
  function SilentMemory(d: Decision): Option<Decision> {
    if |d.operations| != 1 || !Valid(d.operations[0]) || !d.operations[0].body.UpdateMemory?
       || !SaysNothing(d.result, d.updates)
    then None
    else
      Some(d.(result := d.result.(reply := d.result.reply.(memory := d.operations[0].body.memory)),
              applied := d.operations))
  }

  predicate Asks(op: Operation, message: string) {
    && op.body.RecordFeedback? && op.body.feedback.needsFollowup
    && Trim(op.body.feedback.question) != "" && !Contains(message, Trim(op.body.feedback.question))
  }

  /** AppendFeedbackFollowup: the first question the message does not ask already. */
  function WithFollowup(message: string, ops: seq<Operation>): string
    decreases |ops|
  {
    if ops == [] then message
    else if !Asks(ops[0], message) then WithFollowup(message, ops[1..])
    else
      var question := Trim(ops[0].body.feedback.question);
      if Trim(message) == "" then question else Trim(message) + "\n\n" + question
  }

  function Asked(p: Projection, ops: seq<Operation>): Projection {
    p.(reply := p.reply.(message := WithFollowup(p.reply.message, ops)))
  }

  /** A complete_episode operation makes the decision a reply, whatever it said it was. */
  function Replied(d: Decision): Option<Decision> {
    match Folded(Watch, d.operations, true)
    case None => None
    case Some(s) =>
      Some(d.(action := "reply", result := Asked(s.result, s.applied), operations := CanonicalAll(d.operations),
              applied := s.applied))
  }

  /** ApplyWatchResultOperations */
  function ReadOperations(d: Decision): Option<Decision> {
    if d.operations == [] then Some(d)
    else if d.action == "ignore" && Waits(d.operations) then SilentWait(d)
    else if !Blank(d.suppressed) then Suppressed(d)
    else if d.action == "ignore" && HasMemoryUpdate(d.operations) then SilentMemory(d)
    else Replied(d)
  }

  /** The enum repair of NormalizeWatchDecisionCompletion. */
  function NormalAssessment(a: Assessment, alert: bool): Assessment {
    var status, verdict := Trim(a.status), Trim(a.verdict);
    if status == "blocked" then a.(status := status, verdict := "")
    else if status != "decision_ready" || !alert then a.(status := status, verdict := verdict)
    else
      a.(status := status,
         verdict := if verdict == "confirmed_issue" || verdict == "likely_issue" then "degraded"
                    else if verdict == "not_issue" then "healthy"
                    else if verdict == "unverified" then "inconclusive"
                    else verdict)
  }

  function NormalOption(a: Option<Assessment>, alert: bool): Option<Assessment> {
    if a.None? then None else Some(NormalAssessment(a.value, alert))
  }

  /** What an operation's completion is rewritten to through the pointer the decision
      and the stream share. */
  datatype Rewrite = Normalize(alert: bool) | Rephrase(message: string, followups: seq<string>)

  function Rewritten(c: Completion, how: Rewrite): Completion {
    match how
    case Normalize(alert) => c.(assessment := NormalOption(c.assessment, alert))
    case Rephrase(message, followups) => c.(message := message, followups := followups)
  }

  function RewrittenOp(op: Operation, how: Rewrite): Operation {
    if op.body.CompleteEpisode? then op.(body := CompleteEpisode(Rewritten(op.body.completion, how))) else op
  }

  function RewrittenAll(ops: seq<Operation>, how: Rewrite): (r: seq<Operation>)
    ensures |r| == |ops|
  {
    seq(|ops|, i requires 0 <= i < |ops| => RewrittenOp(ops[i], how))
  }

  /** NormalizeWatchDecisionCompletion */
  function Normalized(d: Decision): Decision {
    if d.result.reply.assessment.None? then d
    else
      var how := Normalize(d.result.offers.alert.Some?);
      d.(result := d.result.(reply := d.result.reply.(
                     assessment := NormalOption(d.result.reply.assessment, how.alert))),
         operations := RewrittenAll(d.operations, how), applied := RewrittenAll(d.applied, how))
  }

  /** setDecisionReply: the projection and the stream it is rebuilt from. */
  function Rephrased(d: Decision, message: string, followups: seq<string>): Decision {
    d.(result := d.result.(reply := d.result.reply.(message := message, followups := followups)),
       operations := RewrittenAll(d.operations, Rephrase(message, followups)),
       applied := RewrittenAll(d.applied, Rephrase(message, followups)))
  }

  function TrimmedUpdate(u: Update): Update {
    Update(Trim(u.incident), Trim(u.kind), Trim(u.state), Trim(u.reference), Trim(u.summary))
  }

  predicate ValidUpdate(u: Update) {
    && u.kind in {"deployment", "terraform"} && u.state in {"pending", "succeeded", "failed"}
    && u.incident != "" && u.reference != "" && u.summary != ""
    && ByteLen(u.reference) <= 300 && ByteLen(u.summary) <= 1200
  }

  /** ValidateWatchPublicationUpdates */
  function CheckedUpdates(updates: seq<Update>): Option<seq<Update>> {
    var trimmed := seq(|updates|, i requires 0 <= i < |updates| => TrimmedUpdate(updates[i]));
    if |updates| <= 4 && (forall i :: 0 <= i < |trimmed| ==> ValidUpdate(trimmed[i])) then Some(trimmed) else None
  }

  predicate NoReply(p: Projection) {
    && p.reply.message == "" && p.reply.followups == [] && p.reply.visuals == []
    && p.offers.memory.None? && p.offers.preference.None? && p.offers.rule.None?
    && p.offers.approval.None? && p.offers.alert.None? && p.schedules == Schedules(None, [])
    && p.work == EMPTY.work
  }

  /** A durable background block that schedules its own recheck. */
  predicate QuietBlock(assessment: Option<Assessment>) {
    assessment.Some? && assessment.value.status == "blocked" && assessment.value.recheck.Some?
  }

  /** RejectUnexpectedWatchFields */
  predicate Expected(d: Decision) {
    match d.action
    case "reply" => d.reaction == "" && d.title == ""
    case "ignore" =>
      && d.reaction == "" && d.title == "" && d.pullRequest == "" && NoReply(d.result)
      && (d.result.reply.assessment.None? || QuietBlock(d.result.reply.assessment))
    case "incident" =>
      d.reaction == "" && d.pullRequest == "" && NoReply(d.result) && d.result.reply.assessment.None? && d.updates == []
    case _ =>
      && (d.action == "react" || d.reaction == "") && d.title == "" && d.pullRequest == ""
      && NoReply(d.result) && d.result.reply.assessment.None? && d.updates == []
      && d.result.records.evidence == [] && d.result.records.coverage == [] && d.result.records.findings == []
  }

  /** The rules of each action. */
  function Acted(rules: Rules, d: Decision): Option<Decision> {
    match d.action
    case "ignore" => Some(d)
    case "reply" =>
      if d.reaction != "" || d.title != "" || !rules.pullRequest(d.pullRequest, d.result.work) then None
      else
        (match rules.reply(d.result)
         case None => None
         case Some(p) => Some(d.(result := p)))
    case "escalate" => if Blank(d.reason) then None else Some(d.(reason := Trim(d.reason)))
    case "react" =>
      (match rules.reaction(d.reaction)
       case None => None
       case Some(name) => Some(d.(reaction := name)))
    case "incident" => if Blank(d.title) || ByteLen(Trim(d.title)) > 200 then None else Some(d.(title := Trim(d.title)))
    case _ => None
  }

  /** DecodeWatchDecision, from the decoded JSON record on. */
  function Decoded(rules: Rules, d: Decision): Option<Decision> {
    match ReadOperations(d)
    case None => None
    case Some(read) =>
      match Acted(rules, Normalized(read))
      case None => None
      case Some(acted) =>
        match CheckedUpdates(acted.updates)
        case None => None
        case Some(updates) =>
          if Expected(acted) && acted.attention.wellFormed then Some(acted.(updates := updates)) else None
  }

  function OffTheWire(op: Operation): Operation {
    if op.body.RecordFinding? then op.(body := RecordFinding(Nameless(op.body.finding))) else op
  }

  function WireStream(ops: seq<Operation>): (r: seq<Operation>)
    ensures |r| == |ops|
  {
    seq(|ops|, i requires 0 <= i < |ops| => OffTheWire(ops[i]))
  }

  /** MarshalWatchDecisionResult and the JSON decoder: beside a stream only the
      routing fields are kept, without one every field is. */
  function Reloaded(d: Decision): Decision {
    if d.operations == [] then
      d.(result := d.result.(records := d.result.records.(findings := Erased(d.result.records.findings), contents := [])),
         applied := [])
    else
      Decision(d.action, "", "", "", d.attention, d.reason, d.suppressed, d.updates, EMPTY,
               WireStream(d.operations), [])
  }

  /** SuppressWatchDecision */
  function SuppressedBy(d: Decision, reason: string): Decision {
    var cause := if Blank(reason) then "host policy" else Trim(reason);
    Suppress(d).(suppressed := cause, reason := Trim(d.reason + "; " + reason))
  }

  /** CarriedRecords.ApplyTo: restored rows ahead of the round's own, operations
      ahead of the completion. */
  function Completed(d: Decision, r: CarriedRecords): Decision {
    if r.operations == [] then d
    else
      d.(operations := Inserted(d.operations, r.operations),
         applied := if d.applied == [] then [] else Inserted(d.applied, r.operations),
         result := d.result.(records := Prepended(r, d.result.records)))
  }

  // ---- The same operations on the decision the host updates in place ----

  class WatchDecision {
    var action: string
    var reaction: string
    var title: string
    var pullRequest: string
    var attention: Attention
    var reason: string
    var suppressed: string
    var updates: seq<Update>
    var operations: seq<Operation>
    var applied: seq<Operation>
    const result: Targets

    constructor (d: Decision)
      ensures View() == d && fresh(result)
    {
      action, reaction, title, pullRequest := d.action, d.reaction, d.title, d.pullRequest;
      attention, reason, suppressed, updates := d.attention, d.reason, d.suppressed, d.updates;
      operations, applied := d.operations, d.applied;
      result := new Targets();
      new;
      result.Assign(d.result);
    }

    function View(): Decision
      reads this, result
    {
      Decision(action, reaction, title, pullRequest, attention, reason, suppressed, updates,
               result.Written(), operations, applied)
    }

    /** applySuppression */
    method ApplySuppression()
      modifies this, result
      ensures View() == Suppress(old(View()))
    {
      action, reaction, title := "ignore", "", "";
      result.Learned(result.records, result.reply.memory);
    }

    method ApplySilentWatchWaitOperations() returns (ok: bool)
      modifies this, result
      ensures ok == SilentWait(old(View())).Some?
      ensures ok ==> View() == SilentWait(old(View())).value
    {
      hide Folded, FoldedOver, CanonicalAll;
      var ops, kept: seq<Operation> := operations, [];
      var waits := false;
      for i := 0 to |ops|
        invariant kept == WaitStream(ops[..i])
        invariant waits == HasWait(ops[..i])
        invariant AllTaken(ops[..i])
        invariant View() == old(View())
      {
        var op := ops[i];
        WaitNext(ops, i);
        hide WaitStream, HasWait, AllTaken, WaitKeeps;
        if WaitKeeps(op.body) {
          if op.body.Event? && op.body.kind == WaitExternal { waits := true; }
          kept := kept + [op];
        } else if !(op.body.CompleteEpisode? && InProgress(op.body.completion.assessment)) {
          Untaken(ops, i);
          return false;
        }
      }
      assert ops[..|ops|] == ops;
      if !waits { return false; }
      var scratch := new Targets();
      FoldedOverNothing(Quiet, kept, false);
      ok, applied := FoldResultOperations(Quiet, kept, scratch, false);
      if !ok { return; }
      result.Learned(scratch.records, NO_MEMORY);
      operations := CanonicalAll(kept);
    }

    method ApplySuppressedWatchOperations() returns (ok: bool)
      modifies this, result
      ensures ok == Suppressed(old(View())).Some?
      ensures ok ==> View() == Suppressed(old(View())).value
    {
      hide Folded, FoldedOver, CanonicalAll;
      var scratch := new Targets();
      FoldedOverNothing(Quiet, operations, true);
      ok, applied := FoldResultOperations(Quiet, operations, scratch, true);
      if !ok { return; }
      operations := CanonicalAll(operations);
      result.Learned(scratch.records, scratch.reply.memory);
      ApplySuppression();
    }

    method ApplySilentWatchMemoryOperation() returns (ok: bool)
      modifies this, result
      ensures ok == SilentMemory(old(View())).Some?
      ensures ok ==> View() == SilentMemory(old(View())).value
      ensures !ok ==> View() == old(View())
    {
      hide Valid, Blank;
      if |operations| != 1 || !Valid(operations[0]) || !operations[0].body.UpdateMemory? { return false; }
      if !SaysNothing(result.Written(), updates) { return false; }
      result.reply := result.reply.(memory := operations[0].body.memory);
      applied := operations;
      return true;
    }

    method AppendFeedbackFollowup()
      modifies result
      ensures View() == old(View()).(result := Asked(old(View()).result, applied))
    {
      hide Asks;
      assert applied[0..] == applied;
      for i := 0 to |applied|
        invariant View() == old(View())
        invariant WithFollowup(result.reply.message, applied) == WithFollowup(result.reply.message, applied[i..])
      {
        assert applied[i..][0] == applied[i] && applied[i..][1..] == applied[i + 1..];
        if Asks(applied[i], result.reply.message) {
          assert applied[i].body.RecordFeedback? by { AskedByFeedback(applied[i], result.reply.message); }
          var question, message := Trim(applied[i].body.feedback.question), Trim(result.reply.message);
          result.reply := result.reply.(message := if message == "" then question else message + "\n\n" + question);
          return;
        }
      }
    }

    /** ApplyWatchResultOperations */
    method ApplyWatchResultOperations() returns (ok: bool)
      requires result.records.contents == []
      modifies this, result
      ensures ok == ReadOperations(old(View())).Some?
      ensures ok ==> View() == ReadOperations(old(View())).value
    {
      hide SilentWait, Suppressed, SilentMemory, Folded, FoldedOver, CanonicalAll, Blank, Waits, HasMemoryUpdate, Asked;
      if operations == [] { return true; }
      if action == "ignore" && Waits(operations) {
        ok := ApplySilentWatchWaitOperations();
        return;
      }
      if !Blank(suppressed) {
        ok := ApplySuppressedWatchOperations();
        return;
      }
      if action == "ignore" && HasMemoryUpdate(operations) {
        ok := ApplySilentWatchMemoryOperation();
        return;
      }
      action := "reply";
      result.Clear();
      FoldedOverNothing(Watch, operations, true);
      ok, applied := FoldResultOperations(Watch, operations, result, true);
      if !ok { return; }
      operations := CanonicalAll(operations);
      AppendFeedbackFollowup();
    }

    /** NormalizeWatchDecisionCompletion */
    method NormalizeWatchDecisionCompletion()
      modifies this, result
      ensures View() == Normalized(old(View()))
    {
      hide NormalOption;
      if result.reply.assessment.None? { return; }
      var how := Normalize(result.offers.alert.Some?);
      result.reply := result.reply.(assessment := NormalOption(result.reply.assessment, how.alert));
      operations, applied := RewrittenAll(operations, how), RewrittenAll(applied, how);
    }

    /** CarriedRecords.ApplyTo */
    method ApplyCarried(records: CarriedRecords)
      modifies this, result
      ensures View() == Completed(old(View()), records)
    {
      hide Inserted;
      if records.operations == [] { return; }
      operations := InsertBeforeCompletion(operations, records.operations);
      if applied != [] {
        applied := InsertBeforeCompletion(applied, records.operations);
      }
      result.records := Prepended(records, result.records);
    }

    /** setDecisionReply */
    method SetDecisionReply(message: string, followups: seq<string>)
      modifies this, result
      ensures View() == Rephrased(old(View()), message, followups)
    {
      var how := Rephrase(message, followups);
      result.reply := result.reply.(message := message, followups := followups);
      var ops := operations;
      for i := 0 to |ops|
        invariant |ops| == |operations|
        invariant forall k :: 0 <= k < i ==> ops[k] == RewrittenOp(operations[k], how)
        invariant forall k :: i <= k < |ops| ==> ops[k] == operations[k]
      {
        hide Rewritten;
        if ops[i].body.CompleteEpisode? {
          ops := ops[i := ops[i].(body := CompleteEpisode(Rewritten(ops[i].body.completion, how)))];
        }
      }
      assert ops == RewrittenAll(operations, how);
      operations, applied := ops, RewrittenAll(applied, how);
    }
  }

  lemma WaitNext(ops: seq<Operation>, i: nat)
    requires i < |ops|
    ensures WaitStream(ops[..i + 1]) == WaitStream(ops[..i]) + if WaitKeeps(ops[i].body) then [ops[i]] else []
    ensures HasWait(ops[..i + 1]) <==> HasWait(ops[..i]) || (ops[i].body.Event? && ops[i].body.kind == WaitExternal)
    ensures AllTaken(ops[..i + 1]) <==> AllTaken(ops[..i]) && WaitTakes(ops[i].body)
  {
    hide WaitTakes, WaitKeeps;
    assert ops[..i + 1][..i] == ops[..i];
  }

  lemma Untaken(ops: seq<Operation>, i: nat)
    requires i < |ops| && !WaitTakes(ops[i].body)
    ensures !AllTaken(ops)
  {
  }

  lemma AskedByFeedback(op: Operation, message: string)
    requires Asks(op, message)
    ensures op.body.RecordFeedback?
  {
  }
}
