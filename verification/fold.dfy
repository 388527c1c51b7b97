/** How a stream of result operations becomes the fields of a result
    (foldResultOperations in internal/decision/decision.go). */
module Fold {
  import opened Options
  import opened Text
  import opened Investigation

  const MAX_OPERATIONS := 100
  const MAX_SCHEDULE_OFFERS := 8

  /** Which optional targets a caller hands to the fold. Watch collects repository
      contents, Report collects the grant offer and takes no work offer, Quiet is
      the scratch decision of the suppressed and silent-wait readings. */
  datatype Lane = Watch | Report | Quiet

  /** What the reply says, and what the conversation should remember. */
  datatype Reply = Reply(
    message: string, followups: seq<string>, visuals: seq<Visual>, memory: Memory,
    assessment: Option<Assessment>)

  /** What the turn learned. */
  datatype Records = Records(
    evidence: seq<Evidence>, coverage: seq<Coverage>, findings: seq<Finding>, contents: seq<Contents>)

  /** The fields that hold at most one payload. */
  datatype Offers = Offers(
    memory: Option<MemoryOffer>, preference: Option<PreferenceOffer>, rule: Option<RuleOffer>,
    grant: Option<GrantOffer>, approval: Option<Approval>, alert: Option<Alert>)

  /** schedule_offer and schedule_offers. */
  datatype Schedules = Schedules(primary: Option<ScheduleOffer>, more: seq<ScheduleOffer>)

  datatype Work = Work(incidentTitle: string, taskTitle: string, taskRepository: string, taskPrompt: string)

  /** The fields of a result the fold may write. */
  datatype Projection = Projection(
    reply: Reply, records: Records, offers: Offers, schedules: Schedules, work: Work)

  const EMPTY := Projection(
    Reply("", [], [], NO_MEMORY, None), Records([], [], [], []),
    Offers(None, None, None, None, None, None), Schedules(None, []), Work("", "", "", ""))

  /** Everything the loop carries from one operation to the next. */
  datatype State = State(
    result: Projection, completed: bool, memoryUpdated: bool, seen: set<string>,
    applied: seq<Operation>)

  const START := State(EMPTY, false, false, {}, [])

  function OrElse<T>(first: Option<T>, second: Option<T>): Option<T> {
    if first.Some? then first else second
  }

  function Learn(lane: Lane, r: Records, op: Operation): Option<Records> {
    match op.body
    case RecordEvidence(e) =>
      if ValidEvidence(e) then Some(r.(evidence := r.evidence + [e.(id := op.id)])) else None
    case RecordCoverage(c) => Some(r.(coverage := r.coverage + [c]))
    case RecordFinding(f) =>
      Some(r.(findings := r.findings + [f.(id := op.id, key := FindingKey(op.id))]))
    case RecordContents(c) => Some(if lane.Watch? then r.(contents := r.contents + [c]) else r)
    case CompleteEpisode(c) => Some(r.(coverage := r.coverage + c.coverage))
    case _ => Some(r)
  }

  function Say(r: Reply, completed: bool, memoryUpdated: bool, op: Operation): Option<Reply> {
    match op.body
    case AttachVisual(v) => Some(r.(visuals := r.visuals + [v]))
    case UpdateMemory(m) => if memoryUpdated then None else Some(r.(memory := m))
    case CompleteEpisode(c) =>
      if completed then None
      else Some(Reply(c.message, c.followups, r.visuals + c.visuals,
                      if memoryUpdated then r.memory else c.memory, c.assessment))
    case _ => Some(r)
  }

  function Offer(lane: Lane, o: Offers, op: Operation): Option<Offers> {
    match op.body
    case RequestApproval(a) => if o.approval.Some? then None else Some(o.(approval := Some(a)))
    case OfferMemory(m) => if o.memory.Some? then None else Some(o.(memory := Some(m)))
    case OfferPreference(p) => if o.preference.Some? then None else Some(o.(preference := Some(p)))
    case OfferRule(r) => if o.rule.Some? then None else Some(o.(rule := Some(r)))
    case OfferGrant(g) =>
      if !lane.Report? then Some(o)
      else if o.grant.Some? then None
      else Some(o.(grant := Some(g)))
    case RecordAlert(a) => if o.alert.Some? then None else Some(o.(alert := Some(a)))
    case CompleteEpisode(c) =>
      Some(o.(memory := OrElse(o.memory, c.memoryOffer), preference := OrElse(o.preference, c.preferenceOffer),
              rule := OrElse(o.rule, c.ruleOffer), alert := OrElse(o.alert, c.alert)))
    case _ => Some(o)
  }

  function Schedule(s: Schedules, op: Operation): Option<Schedules> {
    match op.body
    case OfferSchedule(o) =>
      if s.primary.None? then Some(s.(primary := Some(o)))
      else if 1 + |s.more| >= MAX_SCHEDULE_OFFERS then None
      else Some(s.(more := s.more + [o]))
    case CompleteEpisode(c) => Some(s.(primary := OrElse(s.primary, c.scheduleOffer)))
    case _ => Some(s)
  }

  function Hand(lane: Lane, w: Work, op: Operation): Option<Work> {
    match op.body
    case OfferTask(t) =>
      if lane.Report? then None
      else if t.kind.Incident? then
        if w.incidentTitle != "" then None else Some(w.(incidentTitle := t.title))
      else if w.taskTitle != "" then None
      else Some(w.(taskTitle := t.title, taskRepository := t.repository, taskPrompt := t.prompt))
    case _ => Some(w)
  }

  /** One pass of the switch: the written targets, or None for a refusal. */
  function Project(lane: Lane, p: Projection, completed: bool, memoryUpdated: bool, op: Operation)
    : Option<Projection>
  {
    var reply := Say(p.reply, completed, memoryUpdated, op);
    var records := Learn(lane, p.records, op);
    var offers := Offer(lane, p.offers, op);
    var schedules := Schedule(p.schedules, op);
    var work := Hand(lane, p.work, op);
    if reply.Some? && records.Some? && offers.Some? && schedules.Some? && work.Some? then
      Some(Projection(reply.value, records.value, offers.value, schedules.value, work.value))
    else None
  }

  function Step(lane: Lane, s: State, op: Operation): Option<State> {
    var id := Trim(op.id);
    if id in s.seen || !Valid(Operation(id, op.body)) then None
    else
      match Project(lane, s.result, s.completed, s.memoryUpdated, Operation(id, op.body))
      case None => None
      case Some(p) =>
        Some(State(p, s.completed || op.body.CompleteEpisode?, s.memoryUpdated || op.body.UpdateMemory?,
                   s.seen + {id}, s.applied + [Applied(op)]))
  }

  function Run(lane: Lane, s: State, ops: seq<Operation>): Option<State>
    decreases |ops|
  {
    if ops == [] then Some(s)
    else
      match Step(lane, s, ops[0])
      case None => None
      case Some(next) => Run(lane, next, ops[1..])
  }

  /** foldResultOperations as a function: the written targets and the applied list. */
  function Folded(lane: Lane, ops: seq<Operation>, requireCompletion: bool): Option<State> {
    if |ops| > MAX_OPERATIONS then None
    else
      match Run(lane, START, ops)
      case None => None
      case Some(s) => if requireCompletion && !s.completed then None else Some(s)
  }

  /** The same from targets that already hold something. */
  function FoldedOver(lane: Lane, before: Projection, ops: seq<Operation>, requireCompletion: bool): Option<State> {
    if |ops| > MAX_OPERATIONS then None
    else
      match Run(lane, START.(result := before), ops)
      case None => None
      case Some(s) => if requireCompletion && !s.completed then None else Some(s)
  }

  lemma FoldedOverNothing(lane: Lane, ops: seq<Operation>, requireCompletion: bool)
    ensures FoldedOver(lane, EMPTY, ops, requireCompletion) == Folded(lane, ops, requireCompletion)
  {
    assert START.(result := EMPTY) == START;
  }

  /** The targets the loop writes through, one field for each part of the result. */
  class Targets {
    var reply: Reply
    var records: Records
    var offers: Offers
    var schedules: Schedules
    var work: Work

    constructor ()
      ensures Written() == EMPTY
    {
      reply, records, offers := EMPTY.reply, EMPTY.records, EMPTY.offers;
      schedules, work := EMPTY.schedules, EMPTY.work;
    }

    function Written(): Projection
      reads this
    {
      Projection(reply, records, offers, schedules, work)
    }

    method Assign(p: Projection)
      modifies this
      ensures Written() == p
    {
      reply, records, offers, schedules, work := p.reply, p.records, p.offers, p.schedules, p.work;
    }

    method Clear()
      modifies this
      ensures Written() == EMPTY
    {
      Assign(EMPTY);
    }

    /** Keep what was learned and drop everything that would speak. */
    method Learned(learned: Records, memory: Memory)
      modifies this
      ensures Written() == EMPTY.(records := learned, reply := EMPTY.reply.(memory := memory))
    {
      Clear();
      records := learned;
      reply := reply.(memory := memory);
    }

    /** record_evidence, record_coverage, record_finding, record_repository_contents */
    method WriteRecord(lane: Lane, op: Operation) returns (ok: bool)
      requires !op.body.CompleteEpisode?
      modifies `records
      ensures var next := Learn(lane, old(records), op);
              ok == next.Some? && records == if ok then next.value else old(records)
    {
      hide ValidEvidence, FindingKey;
      ok := true;
      match op.body
      case RecordEvidence(e) =>
        if !ValidEvidence(e) { return false; }
        records := records.(evidence := records.evidence + [e.(id := op.id)]);
      case RecordCoverage(c) => records := records.(coverage := records.coverage + [c]);
      case RecordFinding(f) =>
        records := records.(findings := records.findings + [f.(id := op.id, key := FindingKey(op.id))]);
      case RecordContents(c) =>
        if lane.Watch? { records := records.(contents := records.contents + [c]); }
      case _ =>
    }

    /** The operations whose target holds one payload and refuses a second. */
    method WriteOffer(lane: Lane, op: Operation) returns (ok: bool)
      requires !op.body.CompleteEpisode?
      modifies `offers
      ensures var next := Offer(lane, old(offers), op);
              ok == next.Some? && offers == if ok then next.value else old(offers)
    {
      ok := true;
      match op.body
      case RequestApproval(a) =>
        if offers.approval.Some? { return false; }
        offers := offers.(approval := Some(a));
      case OfferMemory(m) =>
        if offers.memory.Some? { return false; }
        offers := offers.(memory := Some(m));
      case OfferPreference(p) =>
        if offers.preference.Some? { return false; }
        offers := offers.(preference := Some(p));
      case OfferRule(r) =>
        if offers.rule.Some? { return false; }
        offers := offers.(rule := Some(r));
      case OfferGrant(g) =>
        if lane.Report? {
          if offers.grant.Some? { return false; }
          offers := offers.(grant := Some(g));
        }
      case RecordAlert(a) =>
        if offers.alert.Some? { return false; }
        offers := offers.(alert := Some(a));
      case _ =>
    }

    /** offer_task */
    method WriteTask(lane: Lane, t: Task) returns (ok: bool)
      modifies `work
      ensures forall id ::
                var next := Hand(lane, old(work), Operation(id, OfferTask(t)));
                ok == next.Some? && work == if ok then next.value else old(work)
    {
      if lane.Report? { return false; }
      if t.kind.Incident? {
        if work.incidentTitle != "" { return false; }
        work := work.(incidentTitle := t.title);
      } else {
        if work.taskTitle != "" { return false; }
        work := work.(taskTitle := t.title, taskRepository := t.repository, taskPrompt := t.prompt);
      }
      ok := true;
    }

    /** offer_schedule: the first is the primary offer, the rest a bounded list. */
    method WriteSchedule(o: ScheduleOffer) returns (ok: bool)
      modifies `schedules
      ensures forall id ::
                var next := Schedule(old(schedules), Operation(id, OfferSchedule(o)));
                ok == next.Some? && schedules == if ok then next.value else old(schedules)
    {
      if schedules.primary.None? {
        schedules := schedules.(primary := Some(o));
        return true;
      }
      if 1 + |schedules.more| >= MAX_SCHEDULE_OFFERS { return false; }
      schedules := schedules.(more := schedules.more + [o]);
      ok := true;
    }

    /** complete_episode: every optional field yields to an operation already read. */
    method WriteCompletion(ghost lane: Lane, memoryUpdated: bool, op: Operation)
      requires op.body.CompleteEpisode?
      modifies this
      ensures Some(reply) == Say(old(reply), false, memoryUpdated, op)
      ensures Some(records) == Learn(lane, old(records), op)
      ensures Some(offers) == Offer(lane, old(offers), op)
      ensures Some(schedules) == Schedule(old(schedules), op)
      ensures work == old(work)
    {
      var c := op.body.completion;
      hide ValidEvidence, FindingKey;
      reply := Reply(c.message, c.followups, reply.visuals + c.visuals,
                     if memoryUpdated then reply.memory else c.memory, c.assessment);
      records := records.(coverage := records.coverage + c.coverage);
      offers := offers.(
        memory := if offers.memory.None? then c.memoryOffer else offers.memory,
        preference := if offers.preference.None? then c.preferenceOffer else offers.preference,
        rule := if offers.rule.None? then c.ruleOffer else offers.rule,
        alert := if offers.alert.None? then c.alert else offers.alert);
      if schedules.primary.None? { schedules := schedules.(primary := c.scheduleOffer); }
    }

    /** The switch of the fold over one operation that has passed Validate. */
    method Write(lane: Lane, completed: bool, memoryUpdated: bool, op: Operation) returns (ok: bool)
      modifies this
      ensures var next := Project(lane, old(Written()), completed, memoryUpdated, op);
              ok == next.Some? && (ok ==> Written() == next.value)
    {
      hide ValidEvidence, FindingKey;
      ok := true;
      if op.body.CompleteEpisode? {
        if completed { return false; }
        WriteCompletion(lane, memoryUpdated, op);
      } else if op.body.AttachVisual? {
        reply := reply.(visuals := reply.visuals + [op.body.visual]);
      } else if op.body.UpdateMemory? {
        if memoryUpdated { return false; }
        reply := reply.(memory := op.body.memory);
      } else if op.body.OfferTask? {
        ok := WriteTask(lane, op.body.task);
      } else if op.body.OfferSchedule? {
        ok := WriteSchedule(op.body.scheduleOffer);
      } else if op.body.RecordEvidence? || op.body.RecordCoverage? || op.body.RecordFinding? || op.body.RecordContents? {
        ok := WriteRecord(lane, op);
      } else {
        ok := WriteOffer(lane, op);
      }
    }
  }

  /** foldResultOperations. A refusal leaves the targets half written, as in the
      source, where every caller then drops the decision. */
  method FoldResultOperations(
    lane: Lane, ops: seq<Operation>, target: Targets, requireCompletion: bool)
    returns (ok: bool, applied: seq<Operation>)
    modifies target
    ensures ok == FoldedOver(lane, old(target.Written()), ops, requireCompletion).Some?
    ensures ok ==> FoldedOver(lane, old(target.Written()), ops, requireCompletion).value.result == target.Written()
    ensures ok ==> FoldedOver(lane, old(target.Written()), ops, requireCompletion).value.applied == applied
  {
    hide Project, Valid, Applied, Trim;
    ghost var start := START.(result := target.Written());
    applied := [];
    if |ops| > MAX_OPERATIONS { return false, applied; }
    var seen: set<string> := {};
    var completed, memoryUpdated := false, false;
    assert ops[0..] == ops;
    for index := 0 to |ops|
      invariant Run(lane, start, ops)
             == Run(lane, State(target.Written(), completed, memoryUpdated, seen, applied), ops[index..])
    {
      var op := ops[index];
      var id := Trim(op.id);
      if id in seen { return false, applied; }
      seen := seen + {id};
      if !Valid(Operation(id, op.body)) { return false, applied; }
      var written := target.Write(lane, completed, memoryUpdated, Operation(id, op.body));
      if !written { return false, applied; }
      completed := completed || op.body.CompleteEpisode?;
      memoryUpdated := memoryUpdated || op.body.UpdateMemory?;
      applied := applied + [Applied(op)];
      assert ops[index..][1..] == ops[index + 1..];
    }
    ok := completed || !requireCompletion;
  }
}
