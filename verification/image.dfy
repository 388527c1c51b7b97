/** Which results some operation stream can say. */
module Image {
  import opened Options
  import opened Text
  import opened Investigation
  import opened Fold
  import opened FoldSpec
  import opened FoldOrder
  import opened Refold
  import opened Decisions
  import opened Persistence
  import opened Envelope

  function Anonymous(e: Evidence): Evidence {
    e.(id := "")
  }

  /** The finding without its operation id and the key derived from it. */
  function Keyless(f: Finding): Finding {
    f.(id := "", key := "")
  }

  function Bare<T>(rows: seq<T>, strip: T -> T): (r: seq<T>)
    ensures |r| == |rows|
  {
    seq(|rows|, i requires 0 <= i < |rows| => strip(rows[i]))
  }

  /** A projection up to evidence and finding ids. */
  function Unnamed(p: Projection): Projection {
    p.(records := p.records.(evidence := Bare(p.records.evidence, Anonymous), findings := Bare(p.records.findings, Keyless)))
  }

  function Held(present: bool): nat {
    if present then 1 else 0
  }

  /** The least number of operations that carry the projection: coverage, visuals,
      memory, the durable offers, the primary schedule and the alert ride in the
      completion. */
  function Cost(p: Projection): nat {
    |p.records.evidence| + |p.records.findings| + Held(p.offers.approval.Some?) + Held(p.work.incidentTitle != "")
    + Held(p.work.taskTitle != "") + 1 + |p.schedules.more|
  }

  predicate RowsSayable(r: Records) {
    && (forall i :: 0 <= i < |r.evidence| ==> ValidEvidenceShape(r.evidence[i]) && ValidEvidence(r.evidence[i]))
    && (forall i :: 0 <= i < |r.findings| ==> ValidFinding(r.findings[i]))
    && r.contents == []
  }

  predicate WorkSayable(w: Work) {
    && (w.incidentTitle != "" ==> !Blank(w.incidentTitle))
    && (w.taskTitle != "" ==> !Blank(w.taskTitle))
    && (w.taskTitle == "" ==> w.taskRepository == "" && w.taskPrompt == "")
  }

  predicate SchedulesSayable(s: Schedules) {
    (s.primary.None? ==> s.more == []) && |s.more| < MAX_SCHEDULE_OFFERS
  }

  predicate Expressible(p: Projection) {
    && !Blank(p.reply.message) && RowsSayable(p.records) && WorkSayable(p.work) && SchedulesSayable(p.schedules)
    && p.offers.grant.None? && Cost(p) <= MAX_OPERATIONS
  }

  // ---- From the projection to a stream ----

  /** Distinct two-digit names. */
  function Name(k: nat): string
    requires k < 100
  {
    [Digit(k / 10), Digit(k % 10)]
  }

  lemma NameFits(k: nat)
    requires k < 100
    ensures Trim(Name(k)) == Name(k) && ValidId(Name(k))
  {
    hide Trim, ByteLen;
    TrimFixed(Name(k));
    AsciiBytes(Name(k));
  }

  lemma NamesDiffer(j: nat, k: nat)
    requires j < 100 && k < 100 && Name(j) == Name(k)
    ensures j == k
  {
    assert Name(j)[0] == Name(k)[0] && Name(j)[1] == Name(k)[1];
  }

  function Names(k: nat): set<string>
    requires k <= 100
  {
    set j | 0 <= j < k :: Name(j)
  }

  lemma NextName(k: nat)
    requires k < 100
    ensures Name(k) !in Names(k) && Names(k + 1) == Names(k) + {Name(k)}
  {
    hide Name;
    forall j | 0 <= j < k ensures Name(j) != Name(k) {
      if Name(j) == Name(k) { NamesDiffer(j, k); }
    }
  }

  /** The bodies as operations numbered from k on. */
  function Numbered(bodies: seq<Body>, k: nat): (r: seq<Operation>)
    requires k + |bodies| <= 100
    ensures |r| == |bodies|
  {
    seq(|bodies|, i requires 0 <= i < |bodies| => Operation(Name(k + i), bodies[i]))
  }

  /** The state after k numbered operations, whatever they wrote. */
  ghost predicate At(s: State, k: nat, p: Projection, completed: bool) {
    k <= 100 && s.seen == Names(k) && s.result == p && s.completed == completed && !s.memoryUpdated
  }

  lemma Written(s: State, k: nat, body: Body, p: Projection, completed: bool) returns (t: State)
    requires k < 100 && At(s, k, p, completed)
    requires ValidBody(body) && !body.UpdateMemory?
    requires Project(Watch, p, completed, false, Operation(Name(k), body)).Some?
    ensures Step(Watch, s, Operation(Name(k), body)) == Some(t)
    ensures At(t, k + 1, Project(Watch, p, completed, false, Operation(Name(k), body)).value,
               completed || body.CompleteEpisode?)
  {
    hide Project, ValidBody, Trim, Name, ValidId, Applied, Names;
    NameFits(k);
    NextName(k);
    t := Step(Watch, s, Operation(Name(k), body)).value;
  }

  lemma {:induction false} RunConcat(lane: Lane, s: State, a: seq<Operation>, b: seq<Operation>)
    ensures Run(lane, s, a + b) == match Run(lane, s, a) case None => None case Some(t) => Run(lane, t, b)
    decreases |a|
  {
    hide Step;
    if a == [] {
      assert a + b == b;
    } else {
      assert (a + b)[0] == a[0] && (a + b)[1..] == a[1..] + b;
      var t := Step(lane, s, a[0]);
      if t.Some? {
        RunConcat(lane, t.value, a[1..], b);
      }
    }
  }

  lemma RunOne(lane: Lane, s: State, op: Operation)
    ensures Run(lane, s, [op]) == Step(lane, s, op)
  {
    hide Step;
    assert [op][1..] == [] && [op][0] == op;
  }

  function EvidenceBodies(rows: seq<Evidence>): (r: seq<Body>)
    ensures |r| == |rows|
  {
    seq(|rows|, i requires 0 <= i < |rows| => RecordEvidence(rows[i]))
  }

  function FindingBodies(rows: seq<Finding>): (r: seq<Body>)
    ensures |r| == |rows|
  {
    seq(|rows|, i requires 0 <= i < |rows| => RecordFinding(rows[i]))
  }

  function ScheduleBodies(offers: seq<ScheduleOffer>): (r: seq<Body>)
    ensures |r| == |offers|
  {
    seq(|offers|, i requires 0 <= i < |offers| => OfferSchedule(offers[i]))
  }

  function NamedEvidence(rows: seq<Evidence>, k: nat): (r: seq<Evidence>)
    requires k + |rows| <= 100
    ensures |r| == |rows|
  {
    seq(|rows|, i requires 0 <= i < |rows| => rows[i].(id := Name(k + i)))
  }

  function NamedFindings(rows: seq<Finding>, k: nat): (r: seq<Finding>)
    requires k + |rows| <= 100
    ensures |r| == |rows|
  {
    seq(|rows|, i requires 0 <= i < |rows| => rows[i].(id := Name(k + i), key := FindingKey(Name(k + i))))
  }

  function MoreEvidence(p: Projection, rows: seq<Evidence>): Projection {
    p.(records := p.records.(evidence := p.records.evidence + rows))
  }

  function MoreFindings(p: Projection, rows: seq<Finding>): Projection {
    p.(records := p.records.(findings := p.records.findings + rows))
  }

  function MoreSchedules(p: Projection, offers: seq<ScheduleOffer>): Projection {
    p.(schedules := p.schedules.(more := p.schedules.more + offers))
  }

  lemma ProjectEvidence(p: Projection, rows: seq<Evidence>, e: Evidence, name: string)
    requires ValidEvidence(e)
    ensures Project(Watch, MoreEvidence(p, rows), false, false, Operation(name, RecordEvidence(e)))
            == Some(MoreEvidence(p, rows + [e.(id := name)]))
  {
    hide ValidEvidence, FindingKey;
    assert (p.records.evidence + rows) + [e.(id := name)] == p.records.evidence + (rows + [e.(id := name)]);
  }

  lemma ProjectFinding(p: Projection, rows: seq<Finding>, f: Finding, name: string)
    ensures Project(Watch, MoreFindings(p, rows), false, false, Operation(name, RecordFinding(f)))
            == Some(MoreFindings(p, rows + [f.(id := name, key := FindingKey(name))]))
  {
    hide ValidEvidence, FindingKey;
    var row := f.(id := name, key := FindingKey(name));
    assert (p.records.findings + rows) + [row] == p.records.findings + (rows + [row]);
  }

  lemma ProjectSchedule(p: Projection, offers: seq<ScheduleOffer>, o: ScheduleOffer, name: string)
    requires p.schedules.primary.Some? && 1 + |p.schedules.more| + |offers| < MAX_SCHEDULE_OFFERS
    ensures Project(Watch, MoreSchedules(p, offers), true, false, Operation(name, OfferSchedule(o)))
            == Some(MoreSchedules(p, offers + [o]))
  {
    hide ValidEvidence, FindingKey;
    assert (p.schedules.more + offers) + [o] == p.schedules.more + (offers + [o]);
  }

  /** One operation after a stream that ran. */
  lemma OneMore(s: State, ops: seq<Operation>, mid: State, op: Operation, t: State)
    requires Run(Watch, s, ops) == Some(mid) && Step(Watch, mid, op) == Some(t)
    ensures Run(Watch, s, ops + [op]) == Some(t)
  {
    hide Step, Run;
    RunConcat(Watch, s, ops, [op]);
    RunOne(Watch, mid, op);
  }

  lemma {:induction false} WriteEvidence(s: State, k: nat, rows: seq<Evidence>, p: Projection) returns (t: State)
    requires k + |rows| <= 100 && At(s, k, p, false)
    requires forall i :: 0 <= i < |rows| ==> ValidEvidenceShape(rows[i]) && ValidEvidence(rows[i])
    ensures Run(Watch, s, Numbered(EvidenceBodies(rows), k)) == Some(t)
    ensures At(t, k + |rows|, MoreEvidence(p, NamedEvidence(rows, k)), false)
    decreases |rows|
  {
    hide At, Name, ValidEvidenceShape, ValidEvidence, Step, FindingKey, Project;
    if rows == [] {
      t := s;
      assert MoreEvidence(p, NamedEvidence(rows, k)) == p;
    } else {
      hide MoreEvidence, Run;
      var n, front, row := |rows| - 1, rows[..|rows| - 1], rows[|rows| - 1];
      var mid := WriteEvidence(s, k, front, p);
      ProjectEvidence(p, NamedEvidence(front, k), row, Name(k + n));
      t := Written(mid, k + n, RecordEvidence(row), MoreEvidence(p, NamedEvidence(front, k)), false);
      OneMore(s, Numbered(EvidenceBodies(front), k), mid, Operation(Name(k + n), RecordEvidence(row)), t);
      assert Numbered(EvidenceBodies(rows), k)
          == Numbered(EvidenceBodies(front), k) + [Operation(Name(k + n), RecordEvidence(row))];
      assert NamedEvidence(rows, k) == NamedEvidence(front, k) + [row.(id := Name(k + n))];
    }
  }

  lemma {:induction false} WriteFindings(s: State, k: nat, rows: seq<Finding>, p: Projection) returns (t: State)
    requires k + |rows| <= 100 && At(s, k, p, false)
    requires forall i :: 0 <= i < |rows| ==> ValidFinding(rows[i])
    ensures Run(Watch, s, Numbered(FindingBodies(rows), k)) == Some(t)
    ensures At(t, k + |rows|, MoreFindings(p, NamedFindings(rows, k)), false)
    decreases |rows|
  {
    hide At, Name, ValidFinding, Step, FindingKey, Project;
    if rows == [] {
      t := s;
      assert MoreFindings(p, NamedFindings(rows, k)) == p;
    } else {
      hide MoreFindings, Run;
      var n, front, row := |rows| - 1, rows[..|rows| - 1], rows[|rows| - 1];
      var mid := WriteFindings(s, k, front, p);
      ProjectFinding(p, NamedFindings(front, k), row, Name(k + n));
      t := Written(mid, k + n, RecordFinding(row), MoreFindings(p, NamedFindings(front, k)), false);
      OneMore(s, Numbered(FindingBodies(front), k), mid, Operation(Name(k + n), RecordFinding(row)), t);
      assert Numbered(FindingBodies(rows), k)
          == Numbered(FindingBodies(front), k) + [Operation(Name(k + n), RecordFinding(row))];
      assert NamedFindings(rows, k)
          == NamedFindings(front, k) + [row.(id := Name(k + n), key := FindingKey(Name(k + n)))];
    }
  }

  lemma {:induction false} WriteSchedules(s: State, k: nat, offers: seq<ScheduleOffer>, p: Projection) returns (t: State)
    requires k + |offers| <= 100 && At(s, k, p, true)
    requires offers != [] ==> p.schedules.primary.Some?
    requires |p.schedules.more| + |offers| < MAX_SCHEDULE_OFFERS
    ensures Run(Watch, s, Numbered(ScheduleBodies(offers), k)) == Some(t)
    ensures At(t, k + |offers|, MoreSchedules(p, offers), true)
    decreases |offers|
  {
    hide At, Name, Step, Project;
    if offers == [] {
      t := s;
      assert MoreSchedules(p, offers) == p;
    } else {
      hide MoreSchedules, Run;
      var n, front, last := |offers| - 1, offers[..|offers| - 1], offers[|offers| - 1];
      var mid := WriteSchedules(s, k, front, p);
      ProjectSchedule(p, front, last, Name(k + n));
      t := Written(mid, k + n, OfferSchedule(last), MoreSchedules(p, front), true);
      OneMore(s, Numbered(ScheduleBodies(front), k), mid, Operation(Name(k + n), OfferSchedule(last)), t);
      assert Numbered(ScheduleBodies(offers), k)
          == Numbered(ScheduleBodies(front), k) + [Operation(Name(k + n), OfferSchedule(last))];
      assert front + [last] == offers;
    }
  }

  /** The operations that hold one payload each. */
  function SingleBodies(p: Projection): (r: seq<Body>)
    ensures |r| == Held(p.offers.approval.Some?) + Held(p.work.incidentTitle != "") + Held(p.work.taskTitle != "")
  {
    (if p.offers.approval.Some? then [RequestApproval(p.offers.approval.value)] else [])
    + (if p.work.incidentTitle != "" then [OfferTask(Task(Incident, p.work.incidentTitle, "", ""))] else [])
    + (if p.work.taskTitle != "" then
         [OfferTask(Task(Engineering, p.work.taskTitle, p.work.taskRepository, p.work.taskPrompt))] else [])
  }

  function CompletionOf(p: Projection): Completion {
    Completion(p.reply.message, p.reply.followups, p.reply.visuals, p.records.coverage, p.reply.memory,
               p.offers.memory, p.offers.preference, p.offers.rule, p.schedules.primary, p.offers.alert,
               p.reply.assessment)
  }

  /** A stream that says the projection. */
  function StreamFor(p: Projection): (r: seq<Operation>)
    requires Cost(p) <= MAX_OPERATIONS
    ensures |r| == Cost(p)
  {
    var e, f, n := |p.records.evidence|, |p.records.findings|, |SingleBodies(p)|;
    Numbered(EvidenceBodies(p.records.evidence), 0) + Numbered(FindingBodies(p.records.findings), e)
    + Numbered(SingleBodies(p), e + f) + Numbered([CompleteEpisode(CompletionOf(p))], e + f + n)
    + Numbered(ScheduleBodies(p.schedules.more), e + f + n + 1)
  }

  /** An operation that may or may not be there. */
  lemma MaybeOne(s: State, k: nat, present: bool, body: Body, p: Projection, q: Projection) returns (t: State)
    requires k + Held(present) <= 100 && At(s, k, p, false)
    requires present ==> ValidBody(body) && !body.UpdateMemory? && !body.CompleteEpisode?
    requires forall name :: present ==> Project(Watch, p, false, false, Operation(name, body)) == Some(q)
    requires !present ==> q == p
    ensures Run(Watch, s, Numbered(if present then [body] else [], k)) == Some(t)
    ensures At(t, k + Held(present), q, false)
  {
    hide Project, At, Step, Name, ValidBody;
    if present {
      t := Written(s, k, body, p, false);
      assert Numbered([body], k) == [Operation(Name(k), body)];
      RunOne(Watch, s, Operation(Name(k), body));
    } else {
      t := s;
    }
  }

  lemma NumberedConcat(a: seq<Body>, b: seq<Body>, k: nat)
    requires k + |a| + |b| <= 100
    ensures Numbered(a + b, k) == Numbered(a, k) + Numbered(b, k + |a|)
  {
    hide Name;
  }

  function WithApproval(q: Projection, p: Projection): Projection {
    q.(offers := q.offers.(approval := p.offers.approval))
  }

  function WithIncident(q: Projection, p: Projection): Projection {
    q.(work := q.work.(incidentTitle := p.work.incidentTitle))
  }

  lemma ProjectSingles(q: Projection, p: Projection, name: string)
    requires q.offers.approval.None? && q.work == EMPTY.work && WorkSayable(p.work)
    ensures p.offers.approval.Some? ==>
              Project(Watch, q, false, false, Operation(name, RequestApproval(p.offers.approval.value)))
              == Some(WithApproval(q, p))
    ensures var a := WithApproval(q, p);
            p.work.incidentTitle != "" ==>
              Project(Watch, a, false, false, Operation(name, OfferTask(Task(Incident, p.work.incidentTitle, "", ""))))
              == Some(WithIncident(a, p))
    ensures var b := WithIncident(WithApproval(q, p), p);
            p.work.taskTitle != "" ==>
              Project(Watch, b, false, false, Operation(name, OfferTask(
                Task(Engineering, p.work.taskTitle, p.work.taskRepository, p.work.taskPrompt))))
              == Some(b.(work := p.work))
    ensures p.work.taskTitle == "" ==> WithIncident(WithApproval(q, p), p).work == p.work
  {
    hide ValidEvidence, FindingKey, Blank;
  }

  lemma ValidSingles(p: Projection)
    requires WorkSayable(p.work)
    ensures p.offers.approval.Some? ==> ValidBody(RequestApproval(p.offers.approval.value))
    ensures p.work.incidentTitle != "" ==> ValidBody(OfferTask(Task(Incident, p.work.incidentTitle, "", "")))
    ensures p.work.taskTitle != "" ==>
              ValidBody(OfferTask(Task(Engineering, p.work.taskTitle, p.work.taskRepository, p.work.taskPrompt)))
  {
    hide Blank, ValidEvidenceShape, ValidCoverage, ValidFinding;
  }

  lemma WriteSingles(s: State, k: nat, q: Projection, p: Projection) returns (t: State)
    requires k + |SingleBodies(p)| <= 100 && At(s, k, q, false)
    requires q.offers.approval.None? && q.work == EMPTY.work && WorkSayable(p.work)
    ensures Run(Watch, s, Numbered(SingleBodies(p), k)) == Some(t)
    ensures At(t, k + |SingleBodies(p)|, WithApproval(q, p).(work := p.work), false)
  {
    hide Project, At, Run, Numbered, ValidBody, WorkSayable;
    forall name { ProjectSingles(q, p, name); }
    ProjectSingles(q, p, "");
    ValidSingles(p);
    var approval := if p.offers.approval.Some? then RequestApproval(p.offers.approval.value) else Malformed("");
    var incident := OfferTask(Task(Incident, p.work.incidentTitle, "", ""));
    var task := OfferTask(Task(Engineering, p.work.taskTitle, p.work.taskRepository, p.work.taskPrompt));
    var a, i, w := p.offers.approval.Some?, p.work.incidentTitle != "", p.work.taskTitle != "";
    var one := WithApproval(q, p);
    var two := WithIncident(one, p);
    var r := MaybeOne(s, k, a, approval, q, one);
    var u := MaybeOne(r, k + Held(a), i, incident, one, two);
    t := MaybeOne(u, k + Held(a) + Held(i), w, task, two, two.(work := p.work));
    var x, y, z := if a then [approval] else [], if i then [incident] else [], if w then [task] else [];
    assert SingleBodies(p) == x + y + z;
    NumberedConcat(x + y, z, k);
    NumberedConcat(x, y, k);
    RunConcat(Watch, s, Numbered(x, k) + Numbered(y, k + |x|), Numbered(z, k + |x| + |y|));
    RunConcat(Watch, s, Numbered(x, k), Numbered(y, k + |x|));
  }

  /** What the stream for a projection folds to: the projection, its rows renamed. */
  function Renamed(p: Projection): Projection
    requires Cost(p) <= MAX_OPERATIONS
  {
    p.(records := p.records.(evidence := NamedEvidence(p.records.evidence, 0),
                             findings := NamedFindings(p.records.findings, |p.records.evidence|)))
  }

  lemma RenamedIsUnnamed(p: Projection)
    requires Cost(p) <= MAX_OPERATIONS
    ensures Unnamed(Renamed(p)) == Unnamed(p)
  {
    hide Name, FindingKey;
    var r := Renamed(p);
    assert Bare(r.records.evidence, Anonymous) == Bare(p.records.evidence, Anonymous);
    assert Bare(r.records.findings, Keyless) == Bare(p.records.findings, Keyless);
  }

  lemma ProjectCompletion(q: Projection, p: Projection, name: string)
    requires q == EMPTY.(records := EMPTY.records.(evidence := q.records.evidence, findings := q.records.findings),
                         offers := EMPTY.offers.(approval := p.offers.approval), work := p.work)
    requires p.records.contents == [] && p.offers.grant.None?
    ensures Project(Watch, q, false, false, Operation(name, CompleteEpisode(CompletionOf(p))))
            == Some(p.(records := p.records.(evidence := q.records.evidence, findings := q.records.findings),
                       schedules := Schedules(p.schedules.primary, [])))
  {
    hide ValidEvidence, FindingKey;
    assert [] + p.records.coverage == p.records.coverage && [] + p.reply.visuals == p.reply.visuals;
  }

  /** Everything expressible is expressed by its stream. */
  lemma StreamSays(p: Projection)
    requires Expressible(p)
    ensures Folded(Watch, StreamFor(p), true).Some?
    ensures Folded(Watch, StreamFor(p), true).value.result == Renamed(p)
  {
    hide Project, At, Run, Numbered, ValidBody, ValidEvidence, ValidEvidenceShape, ValidFinding, NamedEvidence,
         NamedFindings, SingleBodies, Step, Blank, WorkSayable;
    var e, f, n := |p.records.evidence|, |p.records.findings|, |SingleBodies(p)|;
    var ne, nf := NamedEvidence(p.records.evidence, 0), NamedFindings(p.records.findings, e);
    StartsAtZero();
    var a := WriteEvidence(START, 0, p.records.evidence, EMPTY);
    var p1 := MoreEvidence(EMPTY, ne);
    var b := WriteFindings(a, e, p.records.findings, p1);
    var p2 := MoreFindings(p1, nf);
    var c := WriteSingles(b, e + f, p2, p);
    var p3 := WithApproval(p2, p).(work := p.work);
    assert [] + ne == ne && [] + nf == nf;
    assert p3.records.evidence == ne && p3.records.findings == nf;
    var done := CompleteEpisode(CompletionOf(p));
    ProjectCompletion(p3, p, Name(e + f + n));
    ValidDone(p);
    var d := Written(c, e + f + n, done, p3, false);
    var p4 := p.(records := p.records.(evidence := ne, findings := nf), schedules := Schedules(p.schedules.primary, []));
    var t := WriteSchedules(d, e + f + n + 1, p.schedules.more, p4);
    JoinStream(p, a, b, c, d, t);
    EndsFolded(p, t, MoreSchedules(p4, p.schedules.more));
  }

  lemma StartsAtZero()
    ensures At(START, 0, EMPTY, false)
  {
    assert Names(0) == {};
  }

  lemma ValidDone(p: Projection)
    requires !Blank(p.reply.message)
    ensures ValidBody(CompleteEpisode(CompletionOf(p)))
  {
    hide Blank;
  }

  lemma EndsFolded(p: Projection, t: State, q: Projection)
    requires Cost(p) <= MAX_OPERATIONS && Run(Watch, START, StreamFor(p)) == Some(t) && At(t, Cost(p), q, true)
    ensures Folded(Watch, StreamFor(p), true) == Some(t) && t.result == q
  {
    hide Run, StreamFor;
  }

  lemma NumberedOne(body: Body, k: nat)
    requires k < 100
    ensures Numbered([body], k) == [Operation(Name(k), body)]
  {
    hide Name;
  }

  lemma Chain(s: State, w: seq<Operation>, a: State, x: seq<Operation>, b: State, y: seq<Operation>, c: State,
              op: Operation, d: State, v: seq<Operation>, t: State)
    requires Run(Watch, s, w) == Some(a) && Run(Watch, a, x) == Some(b) && Run(Watch, b, y) == Some(c)
    requires Step(Watch, c, op) == Some(d) && Run(Watch, d, v) == Some(t)
    ensures Run(Watch, s, w + x + y + [op] + v) == Some(t)
  {
    hide Run, Step;
    RunConcat(Watch, s, w, x);
    RunConcat(Watch, s, w + x, y);
    OneMore(s, w + x + y, c, op, d);
    RunConcat(Watch, s, w + x + y + [op], v);
  }

  lemma JoinStream(p: Projection, a: State, b: State, c: State, d: State, t: State)
    requires Cost(p) <= MAX_OPERATIONS
    requires Run(Watch, START, Numbered(EvidenceBodies(p.records.evidence), 0)) == Some(a)
    requires Run(Watch, a, Numbered(FindingBodies(p.records.findings), |p.records.evidence|)) == Some(b)
    requires var k := |p.records.evidence| + |p.records.findings|;
             Run(Watch, b, Numbered(SingleBodies(p), k)) == Some(c)
    requires var k := |p.records.evidence| + |p.records.findings| + |SingleBodies(p)|;
             Step(Watch, c, Operation(Name(k), CompleteEpisode(CompletionOf(p)))) == Some(d)
    requires var k := |p.records.evidence| + |p.records.findings| + |SingleBodies(p)| + 1;
             Run(Watch, d, Numbered(ScheduleBodies(p.schedules.more), k)) == Some(t)
    ensures Run(Watch, START, StreamFor(p)) == Some(t)
  {
    hide Run, Step, SingleBodies, EvidenceBodies, FindingBodies, ScheduleBodies, CompletionOf, Numbered, Name;
    var e, f, n := |p.records.evidence|, |p.records.findings|, |SingleBodies(p)|;
    NumberedOne(CompleteEpisode(CompletionOf(p)), e + f + n);
    Chain(START, Numbered(EvidenceBodies(p.records.evidence), 0), a,
          Numbered(FindingBodies(p.records.findings), e), b, Numbered(SingleBodies(p), e + f), c,
          Operation(Name(e + f + n), CompleteEpisode(CompletionOf(p))), d,
          Numbered(ScheduleBodies(p.schedules.more), e + f + n + 1), t);
  }

  // ---- From a stream to the conditions ----

  lemma {:induction false} OneEach(ops: seq<Operation>)
    ensures |Payloads(ops, EvidenceIn)| + |Payloads(ops, FindingIn)| + |Payloads(ops, ApprovalIn)|
          + |Payloads(ops, IncidentIn)| + |Payloads(ops, EngineeringIn)| + |Payloads(ops, ScheduleIn)|
          + |Payloads(ops, CompletionIn)| <= |ops|
    decreases |ops|
  {
    hide Trim, FindingKey;
    if ops != [] {
      OneEach(ops[..|ops| - 1]);
    }
  }

  lemma ScheduleCount(ops: seq<Operation>)
    ensures |ScheduleList(ops)| <= |Payloads(ops, ScheduleIn)| + 1
  {
    var at := CompletionAt(ops);
    if at < |ops| {
      hide CompletionAt, Concluded;
      PayloadsAround(ops, at, ScheduleIn);
    } else {
      ScheduleListOpen(ops);
    }
  }

  lemma SaidMessage(ops: seq<Operation>)
    requires Folded(Watch, ops, true).Some?
    ensures !Blank(Folded(Watch, ops, true).value.result.reply.message)
  {
    hide Folded, DistinctIds, RecordsOk, OffersOk, WorkOk, SchedulesOk, Payloads, DeclaredRecords, DeclaredOffers,
         DeclaredSchedules, DeclaredWork, AppliedAll, Valid, Trim, Blank, EachValid;
    FoldExactly(Watch, ops, true);
    var c := Payloads(ops, CompletionIn)[0];
    var at := PayloadSource(ops, CompletionIn, c);
    ValidAt(ops, at);
    ValidCompletion(Trim(ops[at].id), c);
  }

  lemma ValidAt(ops: seq<Operation>, at: nat)
    requires EachValid(ops) && at < |ops|
    ensures Valid(Operation(Trim(ops[at].id), ops[at].body))
  {
    hide Valid, Trim;
  }

  lemma ValidRows(op: Operation)
    requires Valid(op)
    ensures op.body.RecordEvidence? ==> ValidEvidenceShape(op.body.evidence)
    ensures op.body.RecordFinding? ==> ValidFinding(op.body.finding)
  {
    hide ValidId, ValidEvidenceShape, ValidFinding, ValidCoverage, Blank, ByteLen, Trim;
  }

  lemma SaidRows(ops: seq<Operation>)
    requires EachValid(ops) && RecordsOk(ops)
    ensures forall e :: e in Payloads(ops, EvidenceIn) ==> ValidEvidenceShape(e) && ValidEvidence(e)
    ensures forall f :: f in Payloads(ops, FindingIn) ==> ValidFinding(f)
  {
    hide EachValid, Payloads, Valid, Trim, FindingKey, ValidEvidence, ValidEvidenceShape, ValidFinding;
    forall e | e in Payloads(ops, EvidenceIn) ensures ValidEvidenceShape(e) && ValidEvidence(e) {
      var at := PayloadSource(ops, EvidenceIn, e);
      ValidAt(ops, at);
      ValidRows(Operation(Trim(ops[at].id), ops[at].body));
      EvidenceIdUnread(ops[at]);
    }
    forall f | f in Payloads(ops, FindingIn) ensures ValidFinding(f) {
      var at := PayloadSource(ops, FindingIn, f);
      ValidAt(ops, at);
      ValidRows(Operation(Trim(ops[at].id), ops[at].body));
      NamelessValid(ops[at].body.finding, f);
    }
  }

  lemma NamelessValid(a: Finding, b: Finding)
    requires Keyless(a) == Keyless(b)
    ensures ValidFinding(a) == ValidFinding(b)
  {
    hide Trim, Lower;
  }

  lemma AnonymousValid(a: Evidence, b: Evidence)
    requires Anonymous(a) == Anonymous(b)
    ensures ValidEvidence(a) == ValidEvidence(b) && ValidEvidenceShape(a) == ValidEvidenceShape(b)
  {
    hide Trim, Lower;
  }

  lemma SaidWork(ops: seq<Operation>)
    requires EachValid(ops)
    ensures WorkSayable(DeclaredWork(ops))
  {
    hide EachValid, Payloads, Valid, Trim, Blank;
    forall t | t in Payloads(ops, IncidentIn) ensures !Blank(t.title) && t.title != "" {
      var at := PayloadSource(ops, IncidentIn, t);
      ValidAt(ops, at);
      ValidTitle(Operation(Trim(ops[at].id), ops[at].body));
    }
    forall t | t in Payloads(ops, EngineeringIn) ensures !Blank(t.title) && t.title != "" {
      var at := PayloadSource(ops, EngineeringIn, t);
      ValidAt(ops, at);
      ValidTitle(Operation(Trim(ops[at].id), ops[at].body));
    }
  }

  /** Whatever a stream folds to costs no more than the stream is long, and meets
      every other condition but the emptiness of the collected contents. */
  lemma SaidIsExpressible(ops: seq<Operation>)
    requires Folded(Watch, ops, true).Some?
    ensures var p := Folded(Watch, ops, true).value.result;
            p.records.contents == [] ==> Expressible(p)
  {
    hide Folded, DistinctIds, ReplyOk, RecordsOk, OffersOk, WorkOk, Payloads, AppliedAll, Valid, Trim, Blank,
         EachValid, ValidEvidence, ValidEvidenceShape, ValidFinding, DeclaredReply, ScheduleList, WorkSayable;
    FoldExactly(Watch, ops, true);
    OneEach(ops);
    ScheduleCount(ops);
    SaidMessage(ops);
    SaidRows(ops);
    SaidWork(ops);
  }

  lemma ExpressibleUnnamed(p: Projection, q: Projection)
    requires Unnamed(p) == Unnamed(q) && Expressible(p)
    ensures Expressible(q)
  {
    hide ValidEvidence, ValidEvidenceShape, ValidFinding, Blank, WorkSayable;
    forall i | 0 <= i < |q.records.evidence|
      ensures ValidEvidenceShape(q.records.evidence[i]) && ValidEvidence(q.records.evidence[i])
    {
      assert Unnamed(p).records.evidence[i] == Unnamed(q).records.evidence[i];
      AnonymousValid(p.records.evidence[i], q.records.evidence[i]);
    }
    forall i | 0 <= i < |q.records.findings| ensures ValidFinding(q.records.findings[i]) {
      assert Unnamed(p).records.findings[i] == Unnamed(q).records.findings[i];
      NamelessValid(p.records.findings[i], q.records.findings[i]);
    }
  }

  ghost predicate Said(ops: seq<Operation>, p: Projection) {
    Folded(Watch, ops, true).Some? && Unnamed(Folded(Watch, ops, true).value.result) == Unnamed(p)
  }

  /** The image of the fold, exactly: some stream says a projection, up to evidence
      and finding ids, if and only if it is expressible. */
  lemma ImageOfTheFold(p: Projection)
    requires p.records.contents == []
    ensures (exists ops :: Said(ops, p)) <==> Expressible(p)
  {
    hide Folded, Expressible, Unnamed;
    if Expressible(p) {
      ExpressibleCost(p);
      StreamSays(p);
      RenamedIsUnnamed(p);
      assert Said(StreamFor(p), p);
    }
    if ops :| Said(ops, p) {
      SaidIsExpressible(ops);
      var q := Folded(Watch, ops, true).value.result;
      SameContents(q, p);
      ExpressibleUnnamed(q, p);
    }
  }

  lemma ExpressibleCost(p: Projection)
    requires Expressible(p)
    ensures Cost(p) <= MAX_OPERATIONS
  {
  }

  lemma SameContents(p: Projection, q: Projection)
    requires Unnamed(p) == Unnamed(q)
    ensures p.records.contents == q.records.contents
  {
  }
}
