/** The fold described without a loop: which streams it accepts, wherever the
    completion stands, and what each field of the result then holds. */
module FoldSpec {
  import opened Options
  import opened Text
  import opened Investigation
  import opened Fold

  /** The payloads a stream carries for one target, in stream order. */
  function Payloads<T>(ops: seq<Operation>, pick: Operation -> seq<T>): seq<T> {
    if ops == [] then [] else Payloads(ops[..|ops| - 1], pick) + pick(ops[|ops| - 1])
  }

  function EvidenceIn(op: Operation): seq<Evidence> {
    if op.body.RecordEvidence? then [op.body.evidence.(id := Trim(op.id))] else []
  }

  function CoverageIn(op: Operation): seq<Coverage> {
    if op.body.RecordCoverage? then [op.body.coverage]
    else if op.body.CompleteEpisode? then op.body.completion.coverage
    else []
  }

  function FindingIn(op: Operation): seq<Finding> {
    if op.body.RecordFinding? then [op.body.finding.(id := Trim(op.id), key := FindingKey(Trim(op.id)))] else []
  }

  function ContentsIn(op: Operation): seq<Contents> {
    if op.body.RecordContents? then [op.body.contents] else []
  }

  function VisualIn(op: Operation): seq<Visual> {
    if op.body.AttachVisual? then [op.body.visual]
    else if op.body.CompleteEpisode? then op.body.completion.visuals
    else []
  }

  function ApprovalIn(op: Operation): seq<Approval> {
    if op.body.RequestApproval? then [op.body.approval] else []
  }

  function TaskIn(op: Operation): seq<Task> {
    if op.body.OfferTask? then [op.body.task] else []
  }

  function IncidentIn(op: Operation): seq<Task> {
    if op.body.OfferTask? && op.body.task.kind.Incident? then [op.body.task] else []
  }

  function EngineeringIn(op: Operation): seq<Task> {
    if op.body.OfferTask? && !op.body.task.kind.Incident? then [op.body.task] else []
  }

  function MemoryIn(op: Operation): seq<Memory> {
    if op.body.UpdateMemory? then [op.body.memory] else []
  }

  function MemoryOfferIn(op: Operation): seq<MemoryOffer> {
    if op.body.OfferMemory? then [op.body.memoryOffer] else []
  }

  function PreferenceIn(op: Operation): seq<PreferenceOffer> {
    if op.body.OfferPreference? then [op.body.preferenceOffer] else []
  }

  function RuleIn(op: Operation): seq<RuleOffer> {
    if op.body.OfferRule? then [op.body.ruleOffer] else []
  }

  function GrantIn(op: Operation): seq<GrantOffer> {
    if op.body.OfferGrant? then [op.body.grantOffer] else []
  }

  function ScheduleIn(op: Operation): seq<ScheduleOffer> {
    if op.body.OfferSchedule? then [op.body.scheduleOffer] else []
  }

  function AlertIn(op: Operation): seq<Alert> {
    if op.body.RecordAlert? then [op.body.alert] else []
  }

  function CompletionIn(op: Operation): seq<Completion> {
    if op.body.CompleteEpisode? then [op.body.completion] else []
  }

  function First<T>(s: seq<T>): Option<T> {
    if s == [] then None else Some(s[0])
  }

  /** Where the first complete_episode stands, or the length when there is none. */
  function CompletionAt(ops: seq<Operation>): (at: nat)
    ensures at <= |ops|
    ensures at < |ops| ==> ops[at].body.CompleteEpisode?
    ensures forall i :: 0 <= i < at ==> !ops[i].body.CompleteEpisode?
  {
    if ops == [] then 0
    else
      var front := ops[..|ops| - 1];
      var at := CompletionAt(front);
      if at < |front| then at
      else if ops[|front|].body.CompleteEpisode? then |front|
      else |ops|
  }

  function Before(ops: seq<Operation>): seq<Operation> {
    ops[..CompletionAt(ops)]
  }

  function After(ops: seq<Operation>): seq<Operation> {
    var at := CompletionAt(ops);
    if at < |ops| then ops[at + 1..] else []
  }

  function Concluded(ops: seq<Operation>): Option<Completion> {
    First(Payloads(ops, CompletionIn))
  }

  /** A field the completion may also carry: an operation wins over the completion,
      and the completion's value closes the field to operations after it. */
  predicate Claimed<T>(ops: seq<Operation>, pick: Operation -> seq<T>, carried: Option<T>) {
    && |Payloads(ops, pick)| <= 1
    && (carried.Some? ==> Payloads(After(ops), pick) == [])
  }

  function CarriedMemory(ops: seq<Operation>): Option<MemoryOffer> {
    match Concluded(ops) case None => None case Some(c) => c.memoryOffer
  }

  function CarriedPreference(ops: seq<Operation>): Option<PreferenceOffer> {
    match Concluded(ops) case None => None case Some(c) => c.preferenceOffer
  }

  function CarriedRule(ops: seq<Operation>): Option<RuleOffer> {
    match Concluded(ops) case None => None case Some(c) => c.ruleOffer
  }

  function CarriedAlert(ops: seq<Operation>): Option<Alert> {
    match Concluded(ops) case None => None case Some(c) => c.alert
  }

  function CarriedSchedule(ops: seq<Operation>): seq<ScheduleOffer> {
    match Concluded(ops)
    case None => []
    case Some(c) => if c.scheduleOffer.Some? then [c.scheduleOffer.value] else []
  }

  /** Every schedule offer the result keeps. The completion's own offer counts only
      when no operation before it offered one. */
  function ScheduleList(ops: seq<Operation>): seq<ScheduleOffer> {
    var before := Payloads(Before(ops), ScheduleIn);
    (if before == [] then CarriedSchedule(ops) else before) + Payloads(After(ops), ScheduleIn)
  }

  function DeclaredReply(ops: seq<Operation>): Reply {
    var visuals := Payloads(ops, VisualIn);
    match Concluded(ops)
    case None => Reply("", [], visuals, First(Payloads(ops, MemoryIn)).GetOr(NO_MEMORY), None)
    case Some(c) =>
      Reply(c.message, c.followups, visuals, First(Payloads(ops, MemoryIn)).GetOr(c.memory), c.assessment)
  }

  function DeclaredRecords(lane: Lane, ops: seq<Operation>): Records {
    Records(Payloads(ops, EvidenceIn), Payloads(ops, CoverageIn), Payloads(ops, FindingIn),
            if lane.Watch? then Payloads(ops, ContentsIn) else [])
  }

  function DeclaredOffers(lane: Lane, ops: seq<Operation>): Offers {
    Offers(OrElse(First(Payloads(ops, MemoryOfferIn)), CarriedMemory(ops)),
           OrElse(First(Payloads(ops, PreferenceIn)), CarriedPreference(ops)),
           OrElse(First(Payloads(ops, RuleIn)), CarriedRule(ops)),
           if lane.Report? then First(Payloads(ops, GrantIn)) else None,
           First(Payloads(ops, ApprovalIn)),
           OrElse(First(Payloads(ops, AlertIn)), CarriedAlert(ops)))
  }

  function DeclaredSchedules(ops: seq<Operation>): Schedules {
    var all := ScheduleList(ops);
    if all == [] then Schedules(None, []) else Schedules(Some(all[0]), all[1..])
  }

  function DeclaredWork(ops: seq<Operation>): Work {
    var incident, engineering := Payloads(ops, IncidentIn), Payloads(ops, EngineeringIn);
    var title := if incident == [] then "" else incident[0].title;
    if engineering == [] then Work(title, "", "", "")
    else Work(title, engineering[0].title, engineering[0].repository, engineering[0].prompt)
  }

  /** What the fold writes for a stream it accepts. */
  function Declared(lane: Lane, ops: seq<Operation>): Projection {
    Projection(DeclaredReply(ops), DeclaredRecords(lane, ops), DeclaredOffers(lane, ops),
               DeclaredSchedules(ops), DeclaredWork(ops))
  }

  predicate ReplyOk(ops: seq<Operation>) {
    |Payloads(ops, CompletionIn)| <= 1 && |Payloads(ops, MemoryIn)| <= 1
  }

  predicate RecordsOk(ops: seq<Operation>) {
    forall i :: 0 <= i < |ops| && ops[i].body.RecordEvidence? ==> ValidEvidence(ops[i].body.evidence)
  }

  predicate OffersOk(lane: Lane, ops: seq<Operation>) {
    && Claimed(ops, MemoryOfferIn, CarriedMemory(ops))
    && Claimed(ops, PreferenceIn, CarriedPreference(ops))
    && Claimed(ops, RuleIn, CarriedRule(ops))
    && Claimed(ops, AlertIn, CarriedAlert(ops))
    && |Payloads(ops, ApprovalIn)| <= 1
    && (lane.Report? ==> |Payloads(ops, GrantIn)| <= 1)
  }

  predicate WorkOk(lane: Lane, ops: seq<Operation>) {
    && |Payloads(ops, IncidentIn)| <= 1
    && |Payloads(ops, EngineeringIn)| <= 1
    && (lane.Report? ==> Payloads(ops, TaskIn) == [])
  }

  predicate SchedulesOk(ops: seq<Operation>) {
    |ScheduleList(ops)| <= MAX_SCHEDULE_OFFERS
  }

  predicate EachValid(ops: seq<Operation>) {
    forall i :: 0 <= i < |ops| ==> Valid(Operation(Trim(ops[i].id), ops[i].body))
  }

  predicate DistinctIds(ops: seq<Operation>) {
    forall i, j :: 0 <= i < j < |ops| ==> Trim(ops[i].id) != Trim(ops[j].id)
  }

  function Ids(ops: seq<Operation>): set<string> {
    set i | 0 <= i < |ops| :: Trim(ops[i].id)
  }

  /** The streams the switch accepts, leaving aside the length and the missing completion. */
  predicate Acceptable(lane: Lane, ops: seq<Operation>) {
    && EachValid(ops) && DistinctIds(ops)
    && ReplyOk(ops) && RecordsOk(ops) && OffersOk(lane, ops) && WorkOk(lane, ops) && SchedulesOk(ops)
  }

  function AppliedAll(ops: seq<Operation>): seq<Operation> {
    seq(|ops|, i requires 0 <= i < |ops| => Applied(ops[i]))
  }

  function DeclaredState(lane: Lane, ops: seq<Operation>): State {
    State(Declared(lane, ops), Payloads(ops, CompletionIn) != [], Payloads(ops, MemoryIn) != [],
          Ids(ops), AppliedAll(ops))
  }

  lemma {:induction false} RunSnoc(lane: Lane, s: State, ops: seq<Operation>, op: Operation)
    ensures Run(lane, s, ops + [op])
         == match Run(lane, s, ops) case None => None case Some(next) => Step(lane, next, op)
    decreases |ops|
  {
    hide Step;
    if ops == [] {
      assert ops + [op] == [op] && [op][1..] == [];
    } else {
      assert (ops + [op])[0] == ops[0] && (ops + [op])[1..] == ops[1..] + [op];
      var next := Step(lane, s, ops[0]);
      if next.Some? {
        RunSnoc(lane, next.value, ops[1..], op);
      }
    }
  }

  lemma {:induction false} PayloadsConcat<T>(a: seq<Operation>, b: seq<Operation>, pick: Operation -> seq<T>)
    ensures Payloads(a + b, pick) == Payloads(a, pick) + Payloads(b, pick)
  {
    if b == [] {
      assert a + b == a;
    } else {
      var front := b[..|b| - 1];
      assert (a + b)[..|a + b| - 1] == a + front;
      PayloadsConcat(a, front, pick);
    }
  }

  /** Reading one operation more. */
  lemma Snoc<T>(ops: seq<Operation>, op: Operation, pick: Operation -> seq<T>)
    ensures Payloads(ops + [op], pick) == Payloads(ops, pick) + pick(op)
    ensures pick(op) == [] ==> Payloads(ops + [op], pick) == Payloads(ops, pick)
  {
    assert (ops + [op])[..|ops|] == ops;
  }

  lemma Reassemble<T>(s: seq<T>, at: nat)
    requires at < |s|
    ensures s == s[..at] + [s[at]] + s[at + 1..]
  {
  }

  lemma PayloadsAround<T>(ops: seq<Operation>, at: nat, pick: Operation -> seq<T>)
    requires at < |ops|
    ensures Payloads(ops, pick) == Payloads(ops[..at], pick) + pick(ops[at]) + Payloads(ops[at + 1..], pick)
  {
    hide Payloads;
    Reassemble(ops, at);
    PayloadsConcat(ops[..at] + [ops[at]], ops[at + 1..], pick);
    Snoc(ops[..at], ops[at], pick);
  }

  lemma AtSnoc(ops: seq<Operation>, op: Operation)
    ensures CompletionAt(ops + [op])
         == if CompletionAt(ops) < |ops| || op.body.CompleteEpisode? then CompletionAt(ops) else |ops| + 1
  {
    assert (ops + [op])[..|ops|] == ops;
  }

  lemma CutAppend<T>(s: seq<T>, x: T, k: nat)
    requires k <= |s|
    ensures (s + [x])[..k] == s[..k] && (s + [x])[k..] == s[k..] + [x]
  {
  }

  lemma SplitPast(ops: seq<Operation>, op: Operation)
    requires CompletionAt(ops) < |ops|
    ensures Before(ops + [op]) == Before(ops) && After(ops + [op]) == After(ops) + [op]
  {
    AtSnoc(ops, op);
    CutAppend(ops, op, CompletionAt(ops));
    CutAppend(ops, op, CompletionAt(ops) + 1);
  }

  lemma SplitNow(ops: seq<Operation>, op: Operation)
    requires CompletionAt(ops) == |ops| && op.body.CompleteEpisode?
    ensures Before(ops + [op]) == ops && After(ops + [op]) == []
  {
    AtSnoc(ops, op);
  }

  lemma SplitNever(ops: seq<Operation>, op: Operation)
    requires CompletionAt(ops) == |ops| && !op.body.CompleteEpisode?
    ensures Before(ops + [op]) == ops + [op] && After(ops + [op]) == []
  {
    AtSnoc(ops, op);
  }

  lemma {:induction false} NoCompletion(ops: seq<Operation>)
    ensures Payloads(ops, CompletionIn) == [] <==> CompletionAt(ops) == |ops|
    ensures CompletionAt(ops) == |ops| ==> Before(ops) == ops && After(ops) == []
  {
    if ops != [] {
      NoCompletion(ops[..|ops| - 1]);
    }
  }

  lemma ReplyStep(ops: seq<Operation>, op: Operation)
    requires ReplyOk(ops)
    ensures Say(DeclaredReply(ops), Payloads(ops, CompletionIn) != [], Payloads(ops, MemoryIn) != [],
                Operation(Trim(op.id), op.body))
         == if ReplyOk(ops + [op]) then Some(DeclaredReply(ops + [op])) else None
  {
    hide Trim;
    Snoc(ops, op, CompletionIn);
    Snoc(ops, op, MemoryIn);
    Snoc(ops, op, VisualIn);
  }

  lemma RecordsStep(lane: Lane, ops: seq<Operation>, op: Operation)
    requires RecordsOk(ops)
    ensures Learn(lane, DeclaredRecords(lane, ops), Operation(Trim(op.id), op.body))
         == if RecordsOk(ops + [op]) then Some(DeclaredRecords(lane, ops + [op])) else None
  {
    hide Trim, ValidEvidence, FindingKey;
    Snoc(ops, op, EvidenceIn);
    Snoc(ops, op, CoverageIn);
    Snoc(ops, op, FindingIn);
    Snoc(ops, op, ContentsIn);
    var more := ops + [op];
    assert forall i :: 0 <= i < |ops| ==> more[i] == ops[i];
    assert more[|ops|] == op;
  }

  lemma EachValidFront(ops: seq<Operation>, op: Operation)
    ensures EachValid(ops + [op]) <==> EachValid(ops) && Valid(Operation(Trim(op.id), op.body))
  {
    hide Valid, Trim;
    var more := ops + [op];
    assert forall i :: 0 <= i < |ops| ==> more[i] == ops[i];
    assert more[|ops|] == op;
  }

  lemma {:induction false} TaskKinds(ops: seq<Operation>)
    ensures Payloads(ops, TaskIn) == [] ==> Payloads(ops, IncidentIn) == [] && Payloads(ops, EngineeringIn) == []
  {
    if ops != [] {
      TaskKinds(ops[..|ops| - 1]);
    }
  }

  /** Every payload was carried by some operation. */
  lemma {:induction false} PayloadSource<T>(ops: seq<Operation>, pick: Operation -> seq<T>, x: T) returns (at: nat)
    requires x in Payloads(ops, pick)
    ensures at < |ops| && x in pick(ops[at])
  {
    var last := |ops| - 1;
    if x in pick(ops[last]) {
      at := last;
    } else {
      at := PayloadSource(ops[..last], pick, x);
    }
  }

  lemma ValidTitle(op: Operation)
    requires Valid(op) && op.body.OfferTask?
    ensures !Blank(op.body.task.title) && op.body.task.title != ""
  {
    TrimFixed("");
    hide Trim, ValidEvidenceShape, ValidCoverage, ValidFinding, ByteLen, NoneBlank;
  }

  /** A valid offer has a title, so an empty title target is an unused one. */
  lemma Titled(ops: seq<Operation>, pick: Operation -> seq<Task>)
    requires EachValid(ops)
    requires pick == IncidentIn || pick == EngineeringIn
    ensures forall t :: t in Payloads(ops, pick) ==> t.title != ""
  {
    hide Valid, Trim;
    forall t | t in Payloads(ops, pick) ensures t.title != "" {
      var at := PayloadSource(ops, pick, t);
      ValidTitle(Operation(Trim(ops[at].id), ops[at].body));
    }
  }

  lemma WorkStep(lane: Lane, ops: seq<Operation>, op: Operation)
    requires WorkOk(lane, ops)
    requires EachValid(ops + [op])
    ensures Hand(lane, DeclaredWork(ops), Operation(Trim(op.id), op.body))
         == if WorkOk(lane, ops + [op]) then Some(DeclaredWork(ops + [op])) else None
  {
    hide Trim;
    Snoc(ops, op, IncidentIn);
    Snoc(ops, op, EngineeringIn);
    Snoc(ops, op, TaskIn);
    EachValidFront(ops, op);
    Titled(ops, IncidentIn);
    Titled(ops, EngineeringIn);
    Titled(ops + [op], IncidentIn);
    Titled(ops + [op], EngineeringIn);
    TaskKinds(ops);
  }

  /** One field that an operation or the completion may fill, one operation later. */
  lemma ClaimStep<T>(ops: seq<Operation>, op: Operation, pick: Operation -> seq<T>, was: Option<T>, now: Option<T>)
    requires Claimed(ops, pick, was)
    requires |Payloads(ops + [op], CompletionIn)| <= 1
    requires Concluded(ops).None? ==> was.None?
    requires if op.body.CompleteEpisode? then pick(op) == [] else now == was && |pick(op)| <= 1
    ensures var held := OrElse(First(Payloads(ops, pick)), was);
            var next := OrElse(First(Payloads(ops + [op], pick)), now);
            if op.body.CompleteEpisode? then Claimed(ops + [op], pick, now) && next == OrElse(held, now)
            else if pick(op) == [] then Claimed(ops + [op], pick, now) && next == held
            else if held.Some? then !Claimed(ops + [op], pick, now)
            else Claimed(ops + [op], pick, now) && next == Some(pick(op)[0])
  {
    Snoc(ops, op, pick);
    Snoc(ops, op, CompletionIn);
    NoCompletion(ops);
    if CompletionAt(ops) < |ops| {
      SplitPast(ops, op);
      Snoc(After(ops), op, pick);
    } else if op.body.CompleteEpisode? {
      SplitNow(ops, op);
    } else {
      SplitNever(ops, op);
    }
  }

  lemma ConcludedSnoc(ops: seq<Operation>, op: Operation)
    requires |Payloads(ops + [op], CompletionIn)| <= 1
    ensures !op.body.CompleteEpisode? ==> Concluded(ops + [op]) == Concluded(ops)
    ensures op.body.CompleteEpisode? ==> Concluded(ops) == None && Concluded(ops + [op]) == Some(op.body.completion)
    ensures Concluded(ops) == None <==> CompletionAt(ops) == |ops|
  {
    Snoc(ops, op, CompletionIn);
    NoCompletion(ops);
  }

  lemma OffersStep(lane: Lane, ops: seq<Operation>, op: Operation)
    requires OffersOk(lane, ops)
    requires |Payloads(ops + [op], CompletionIn)| <= 1
    ensures Offer(lane, DeclaredOffers(lane, ops), Operation(Trim(op.id), op.body))
         == if OffersOk(lane, ops + [op]) then Some(DeclaredOffers(lane, ops + [op])) else None
  {
    hide Trim, Payloads, Concluded, Claimed;
    var more := ops + [op];
    ConcludedSnoc(ops, op);
    Snoc(ops, op, ApprovalIn);
    Snoc(ops, op, GrantIn);
    ClaimStep(ops, op, MemoryOfferIn, CarriedMemory(ops), CarriedMemory(more));
    ClaimStep(ops, op, PreferenceIn, CarriedPreference(ops), CarriedPreference(more));
    ClaimStep(ops, op, RuleIn, CarriedRule(ops), CarriedRule(more));
    ClaimStep(ops, op, AlertIn, CarriedAlert(ops), CarriedAlert(more));
  }

  lemma ScheduleListOpen(ops: seq<Operation>)
    requires CompletionAt(ops) == |ops|
    ensures ScheduleList(ops) == Payloads(ops, ScheduleIn)
  {
    NoCompletion(ops);
  }

  lemma ScheduleListPast(ops: seq<Operation>, op: Operation)
    requires CompletionAt(ops) < |ops| && Concluded(ops + [op]) == Concluded(ops)
    ensures ScheduleList(ops + [op]) == ScheduleList(ops) + ScheduleIn(op)
  {
    hide Concluded, Before, After, Payloads, CompletionAt;
    SplitPast(ops, op);
    Snoc(After(ops), op, ScheduleIn);
  }

  lemma ScheduleListSnoc(ops: seq<Operation>, op: Operation)
    requires |Payloads(ops + [op], CompletionIn)| <= 1
    ensures op.body.OfferSchedule? ==> ScheduleList(ops + [op]) == ScheduleList(ops) + [op.body.scheduleOffer]
    ensures op.body.CompleteEpisode? && ScheduleList(ops) != [] ==> ScheduleList(ops + [op]) == ScheduleList(ops)
    ensures op.body.CompleteEpisode? && ScheduleList(ops) == [] ==> ScheduleList(ops + [op]) == CarriedSchedule(ops + [op])
    ensures !op.body.OfferSchedule? && !op.body.CompleteEpisode? ==> ScheduleList(ops + [op]) == ScheduleList(ops)
  {
    ConcludedSnoc(ops, op);
    if CompletionAt(ops) < |ops| {
      hide ScheduleList, Concluded, Payloads, CompletionAt;
      ScheduleListPast(ops, op);
    } else if op.body.CompleteEpisode? {
      ScheduleListOpen(ops);
      SplitNow(ops, op);
      hide Before, After;
    } else {
      AtSnoc(ops, op);
      ScheduleListOpen(ops);
      ScheduleListOpen(ops + [op]);
      Snoc(ops, op, ScheduleIn);
      hide ScheduleList, Payloads;
    }
  }

  lemma SchedulesStep(ops: seq<Operation>, op: Operation)
    requires SchedulesOk(ops)
    requires |Payloads(ops + [op], CompletionIn)| <= 1
    ensures Schedule(DeclaredSchedules(ops), Operation(Trim(op.id), op.body))
         == if SchedulesOk(ops + [op]) then Some(DeclaredSchedules(ops + [op])) else None
  {
    hide Trim, ScheduleList, Concluded, Payloads;
    ScheduleListSnoc(ops, op);
    ConcludedSnoc(ops, op);
    var all := ScheduleList(ops);
    if op.body.OfferSchedule? {
      if all == [] {
        assert ScheduleList(ops + [op]) == [op.body.scheduleOffer];
      } else {
        CutAppend(all, op.body.scheduleOffer, 1);
      }
    }
    assert |ScheduleList(ops + [op])| == 1 ==> ScheduleList(ops + [op])[1..] == [];
  }

  lemma IdsSnoc(ops: seq<Operation>, op: Operation)
    ensures Ids(ops + [op]) == Ids(ops) + {Trim(op.id)}
    ensures DistinctIds(ops + [op]) <==> DistinctIds(ops) && Trim(op.id) !in Ids(ops)
  {
    hide Trim;
    var more := ops + [op];
    assert forall i :: 0 <= i < |ops| ==> more[i] == ops[i];
    assert more[|ops|] == op;
  }

  lemma AppliedSnoc(ops: seq<Operation>, op: Operation)
    ensures AppliedAll(ops + [op]) == AppliedAll(ops) + [Applied(op)]
  {
    hide Applied;
  }

  /** A refused stream stays refused, whatever follows. */
  lemma Refused(lane: Lane, ops: seq<Operation>, op: Operation)
    requires Acceptable(lane, ops + [op])
    ensures Acceptable(lane, ops)
  {
    hide Payloads, EachValid, DistinctIds, RecordsOk, OffersOk, ScheduleList, Valid, Trim;
    EachValidFront(ops, op);
    IdsSnoc(ops, op);
    Snoc(ops, op, CompletionIn);
    Snoc(ops, op, MemoryIn);
    Snoc(ops, op, IncidentIn);
    Snoc(ops, op, EngineeringIn);
    Snoc(ops, op, TaskIn);
    RecordsFront(ops, op);
    OffersFront(lane, ops, op);
    ScheduleListSnoc(ops, op);
  }

  lemma RecordsFront(ops: seq<Operation>, op: Operation)
    requires RecordsOk(ops + [op])
    ensures RecordsOk(ops)
  {
    hide ValidEvidence;
    assert forall i :: 0 <= i < |ops| ==> (ops + [op])[i] == ops[i];
  }

  lemma ClaimFront<T>(ops: seq<Operation>, op: Operation, pick: Operation -> seq<T>, was: Option<T>, now: Option<T>)
    requires Claimed(ops + [op], pick, now)
    requires |Payloads(ops + [op], CompletionIn)| <= 1
    requires Concluded(ops).None? ==> was.None?
    requires !op.body.CompleteEpisode? ==> now == was
    ensures Claimed(ops, pick, was)
  {
    Snoc(ops, op, pick);
    Snoc(ops, op, CompletionIn);
    NoCompletion(ops);
    if CompletionAt(ops) < |ops| {
      SplitPast(ops, op);
      Snoc(After(ops), op, pick);
    }
  }

  lemma OffersFront(lane: Lane, ops: seq<Operation>, op: Operation)
    requires OffersOk(lane, ops + [op])
    requires |Payloads(ops + [op], CompletionIn)| <= 1
    ensures OffersOk(lane, ops)
  {
    hide Payloads, Claimed, Concluded;
    var more := ops + [op];
    ConcludedSnoc(ops, op);
    Snoc(ops, op, ApprovalIn);
    Snoc(ops, op, GrantIn);
    ClaimFront(ops, op, MemoryOfferIn, CarriedMemory(ops), CarriedMemory(more));
    ClaimFront(ops, op, PreferenceIn, CarriedPreference(ops), CarriedPreference(more));
    ClaimFront(ops, op, RuleIn, CarriedRule(ops), CarriedRule(more));
    ClaimFront(ops, op, AlertIn, CarriedAlert(ops), CarriedAlert(more));
  }

  /** One pass of the switch, against the description. */
  lemma ProjectDeclared(lane: Lane, ops: seq<Operation>, op: Operation)
    requires Acceptable(lane, ops) && EachValid(ops + [op])
    ensures Project(lane, Declared(lane, ops), Payloads(ops, CompletionIn) != [], Payloads(ops, MemoryIn) != [],
                    Operation(Trim(op.id), op.body))
         == if ReplyOk(ops + [op]) && RecordsOk(ops + [op]) && OffersOk(lane, ops + [op])
               && WorkOk(lane, ops + [op]) && SchedulesOk(ops + [op])
            then Some(Declared(lane, ops + [op])) else None
  {
    hide Payloads, EachValid, DistinctIds, RecordsOk, OffersOk, WorkOk, SchedulesOk, Trim, Say, Learn, Offer,
         Schedule, Hand, DeclaredReply, DeclaredRecords, DeclaredOffers, DeclaredSchedules, DeclaredWork;
    ReplyStep(ops, op);
    if ReplyOk(ops + [op]) {
      RecordsStep(lane, ops, op);
      WorkStep(lane, ops, op);
      OffersStep(lane, ops, op);
      SchedulesStep(ops, op);
    }
  }

  /** One more operation, against the description. */
  lemma DeclaredStep(lane: Lane, ops: seq<Operation>, op: Operation)
    requires Acceptable(lane, ops)
    ensures Step(lane, DeclaredState(lane, ops), op)
         == if Acceptable(lane, ops + [op]) then Some(DeclaredState(lane, ops + [op])) else None
  {
    hide Payloads, EachValid, DistinctIds, ReplyOk, RecordsOk, OffersOk, WorkOk, SchedulesOk, Ids, AppliedAll,
         Valid, Trim, Applied, Project, Declared;
    EachValidFront(ops, op);
    IdsSnoc(ops, op);
    AppliedSnoc(ops, op);
    Snoc(ops, op, CompletionIn);
    Snoc(ops, op, MemoryIn);
    if EachValid(ops + [op]) {
      ProjectDeclared(lane, ops, op);
    }
  }

  /** The loop computes the description: it accepts exactly the acceptable streams
      and writes exactly the declared fields, wherever the completion stands. */
  lemma {:induction false} RunIsDeclared(lane: Lane, ops: seq<Operation>)
    ensures Run(lane, START, ops) == if Acceptable(lane, ops) then Some(DeclaredState(lane, ops)) else None
    decreases |ops|
  {
    if ops == [] {
      EmptyIsDeclared(lane);
    } else {
      var front, last := ops[..|ops| - 1], ops[|ops| - 1];
      assert ops == front + [last];
      RunIsDeclared(lane, front);
      RunSnoc(lane, START, front, last);
      if Acceptable(lane, front) {
        DeclaredStep(lane, front, last);
      } else if Acceptable(lane, ops) {
        Refused(lane, front, last);
      }
      hide Acceptable, DeclaredState, Step, Run;
    }
  }

  lemma EmptyIsDeclared(lane: Lane)
    ensures Acceptable(lane, []) && DeclaredState(lane, []) == START
  {
    hide Trim, Valid, Applied;
    assert AppliedAll([]) == [];
    assert Ids([]) == {};
  }

  /** FoldResultOperations, exactly: when it succeeds and what it then holds. */
  lemma FoldExactly(lane: Lane, ops: seq<Operation>, requireCompletion: bool)
    ensures Folded(lane, ops, requireCompletion).Some?
       <==> |ops| <= MAX_OPERATIONS && Acceptable(lane, ops)
            && (requireCompletion ==> |Payloads(ops, CompletionIn)| == 1)
    ensures Folded(lane, ops, requireCompletion).Some? ==>
              && Folded(lane, ops, requireCompletion).value.result == Declared(lane, ops)
              && Folded(lane, ops, requireCompletion).value.applied == AppliedAll(ops)
  {
    RunIsDeclared(lane, ops);
    hide EachValid, DistinctIds, RecordsOk, OffersOk, WorkOk, SchedulesOk, Declared, AppliedAll, Run, Ids;
  }
}
