/** Every interleaving of opens, branch finishes and retries over the run rows: the
    synthesis is queued once, only after every branch has stopped, and, unless the
    last finisher is cut off, always. */
module BranchProtocol {
  import opened Counting
  import opened Options
  import opened Text
  import opened Fanout
  import opened Branching

  /** The goals each lead episode was granted. */
  datatype Grant = Grant(incident: string, goals: seq<string>)
  type Plan = map<string, Grant>

  /** One branch is never granted. */
  const MINIMUM_BRANCHES := 2

  predicate Sensible(id: string, g: Grant) {
    && LeadId(id) && !Marked("incident:" + g.incident)
    && MINIMUM_BRANCHES <= |g.goals| <= SIBLING_LIMIT && Distinct(g.goals) && (forall goal :: goal in g.goals ==> !Blank(goal))
  }

  ghost predicate ValidPlan(plan: Plan) {
    forall id :: id in plan ==> Sensible(id, plan[id])
  }

  /** Where a call of Finish stands between its store transactions: nothing done,
      phase written, run finished, siblings read. */
  datatype Stage = Called | PhaseWritten | RunClosed | SiblingsRead(ready: bool)

  datatype Call = Call(row: nat, completed: bool, stage: Stage)

  /** The rows, the calls in flight, and, as history, the leads one of whose calls
      was cut off after every branch run had finished. */
  datatype System = System(rows: seq<Row>, calls: seq<Call>, lost: set<string>)

  datatype Event =
    | OpenRow(lead: string, goal: string)        // one admission of a first or retried openBranches
    | OtherRun(row: Row)                         // any other run is admitted
    | OtherMoves(at: nat, life: string, run: RunState)  // a run that is no branch moves on
    | ResultStaged(at: nat)                      // a branch run has its result
    | FinishCalled(at: nat, completed: bool)     // Finish, for the first time or again
    | StoreStep(call: nat)                       // a call takes its next transaction
    | CutOff(call: nat)                          // a store error or a crash ends the call

  predicate Opened(plan: Plan, rows: seq<Row>, id: string)
    requires id in plan
  {
    forall goal :: goal in plan[id].goals ==> Known(rows, FANOUT_KIND, BranchSourceId(id, goal))
  }

  predicate AllStopped(rows: seq<Row>, id: string) {
    forall i :: 0 <= i < |rows| && BranchOf(rows[i], id) ==> Terminal(rows[i].life)
  }

  predicate AllFinished(rows: seq<Row>, id: string) {
    forall i :: 0 <= i < |rows| && BranchOf(rows[i], id) ==> rows[i].run.Finished?
  }

  predicate HasSynthesis(rows: seq<Row>, id: string) {
    Known(rows, FANOUT_KIND, SynthesisSourceId(id))
  }

  /** eager lifts the assumption that branches are finished only after every row of
      their fan-out was admitted. */
  predicate Enabled(plan: Plan, s: System, e: Event, eager: bool) {
    match e
    case OpenRow(id, goal) => id in plan && goal in plan[id].goals
    case OtherRun(row) => row.kind != FANOUT_KIND && !Marked(row.key) && row.run.Live?
    case OtherMoves(at, _, _) => at < |s.rows| && !Marked(s.rows[at].key)
    case ResultStaged(at) => at < |s.rows| && Marked(s.rows[at].key) && s.rows[at].run.Live?
    case FinishCalled(at, _) =>
      && at < |s.rows| && Marked(s.rows[at].key) && !s.rows[at].run.Live?
      && s.rows[at].parent in plan && (eager || Opened(plan, s.rows, s.rows[at].parent))
    case StoreStep(call) => call < |s.calls| && s.calls[call].row < |s.rows|
    case CutOff(call) => call < |s.calls| && s.calls[call].row < |s.rows|
  }

  function Without(calls: seq<Call>, c: nat): seq<Call>
    requires c < |calls|
  {
    calls[..c] + calls[c + 1..]
  }

  /** The calls that still owe their lead a synthesis. */
  predicate Owing(stage: Stage) {
    stage.RunClosed? || (stage.SiblingsRead? && stage.ready)
  }

  function Ended(s: System, c: nat, rows: seq<Row>, failed: bool): System
    requires c < |s.calls| && s.calls[c].row < |s.rows|
  {
    var id := s.rows[s.calls[c].row].parent;
    System(rows, Without(s.calls, c),
           if failed && Owing(s.calls[c].stage) && AllFinished(s.rows, id) then s.lost + {id} else s.lost)
  }

  function Moved(s: System, c: nat, rows: seq<Row>, stage: Stage): System
    requires c < |s.calls|
  {
    s.(rows := rows, calls := s.calls[c := s.calls[c].(stage := stage)])
  }

  /** The next transaction of a call of Finish. */
  function Stepped(s: System, c: nat): System
    requires c < |s.calls| && s.calls[c].row < |s.rows|
  {
    var call := s.calls[c];
    var row := s.rows[call.row];
    match call.stage
    case Called => Moved(s, c, Phased(s.rows, call.row, StoppedAs(call.completed)), PhaseWritten)
    case PhaseWritten =>
      if row.run.Finalizing? then Moved(s, c, RunFinished(s.rows, call.row), RunClosed) else Ended(s, c, s.rows, true)
    case RunClosed => Moved(s, c, s.rows, SiblingsRead(Ready(Listed(s.rows, row.parent, SIBLING_LIMIT))))
    case SiblingsRead(ready) =>
      if !ready then Ended(s, c, s.rows, false)
      else
        var synthesis := SynthesisRow(Lead(row.parent, row.incident));
        Ended(s, c, Queued(s.rows, synthesis), QueueOutcome(s.rows, synthesis).Conflict?)
  }

  function Next(plan: Plan, s: System, e: Event, eager: bool): System
    requires Enabled(plan, s, e, eager)
  {
    match e
    case OpenRow(id, goal) => s.(rows := Queued(s.rows, BranchRow(Lead(id, plan[id].incident), goal)))
    case OtherRun(row) => s.(rows := Queued(s.rows, row))
    case OtherMoves(at, life, run) => s.(rows := s.rows[at := s.rows[at].(life := life, run := run)])
    case ResultStaged(at) => s.(rows := s.rows[at := s.rows[at].(run := Finalizing)])
    case FinishCalled(at, completed) => s.(calls := s.calls + [Call(at, completed, Called)])
    case StoreStep(call) => Stepped(s, call)
    case CutOff(call) => Ended(s, call, s.rows, true)
  }

  const EMPTY := System([], [], {})

  /** The state after a run of events, if each was enabled in its turn. */
  function Exec(plan: Plan, s: System, events: seq<Event>, eager: bool): Option<System> {
    if events == [] then Some(s)
    else
      match Exec(plan, s, events[..|events| - 1], eager)
      case None => None
      case Some(t) =>
        var e := events[|events| - 1];
        if Enabled(plan, t, e, eager) then Some(Next(plan, t, e, eager)) else None
  }

  // ---- The invariant ----

  predicate BranchShape(plan: Plan, row: Row) {
    && row.parent in plan && row.incident == plan[row.parent].incident && row.kind == FANOUT_KIND
    && GoalId(row) in plan[row.parent].goals && row.source == BranchSourceId(row.parent, GoalId(row))
  }

  ghost predicate OtherShape(plan: Plan, row: Row) {
    row.kind == FANOUT_KIND ==> exists id :: id in plan && row.source == SynthesisSourceId(id)
  }

  ghost predicate Shaped(plan: Plan, rows: seq<Row>) {
    forall i :: 0 <= i < |rows| ==> if Marked(rows[i].key) then BranchShape(plan, rows[i]) else OtherShape(plan, rows[i])
  }

  ghost predicate UniqueSources(rows: seq<Row>) {
    forall i, j :: 0 <= i < j < |rows| && rows[i].kind == rows[j].kind ==> rows[i].source != rows[j].source
  }

  ghost predicate FinishedStopped(rows: seq<Row>) {
    forall i :: 0 <= i < |rows| && Marked(rows[i].key) && rows[i].run.Finished? ==> Terminal(rows[i].life)
  }

  ghost predicate CallOk(plan: Plan, rows: seq<Row>, c: Call) {
    && c.row < |rows| && Marked(rows[c.row].key) && !rows[c.row].run.Live?
    && rows[c.row].parent in plan && Opened(plan, rows, rows[c.row].parent)
    && (!c.stage.Called? ==> Terminal(rows[c.row].life))
    && (c.stage.RunClosed? || c.stage.SiblingsRead? ==> rows[c.row].run.Finished?)
    && (c.stage.SiblingsRead? && c.stage.ready ==> AllStopped(rows, rows[c.row].parent))
  }

  ghost predicate CallsOk(plan: Plan, s: System) {
    forall c :: c in s.calls ==> CallOk(plan, s.rows, c)
  }

  /** A synthesis row means every branch row is there and has stopped. */
  ghost predicate NoEarlySynthesis(plan: Plan, rows: seq<Row>) {
    forall id :: id in plan && HasSynthesis(rows, id) ==> Opened(plan, rows, id) && AllStopped(rows, id)
  }

  ghost predicate OwedBy(s: System, id: string, c: Call) {
    c.row < |s.rows| && s.rows[c.row].parent == id && Owing(c.stage)
  }

  /** Once every branch run has finished, the synthesis is there, or some call still
      owes it, or the last finisher was cut off. */
  ghost predicate SynthesisOwed(plan: Plan, s: System) {
    forall id :: id in plan && Opened(plan, s.rows, id) && AllFinished(s.rows, id) && id !in s.lost
                 && !HasSynthesis(s.rows, id)
      ==> exists c :: c in s.calls && OwedBy(s, id, c)
  }

  ghost predicate Inv(plan: Plan, s: System) {
    && Shaped(plan, s.rows) && UniqueSources(s.rows) && FinishedStopped(s.rows)
    && CallsOk(plan, s) && NoEarlySynthesis(plan, s.rows) && SynthesisOwed(plan, s)
  }

  // ---- What the siblings' list says ----

  ghost predicate DistinctGoals(siblings: seq<Row>) {
    forall i, j :: 0 <= i < j < |siblings| ==> GoalId(siblings[i]) != GoalId(siblings[j])
  }

  ghost predicate Named(siblings: seq<Row>) {
    forall i :: 0 <= i < |siblings| ==> GoalId(siblings[i]) != ""
  }

  lemma {:induction false} StatesExact(siblings: seq<Row>)
    requires DistinctGoals(siblings) && Named(siblings)
    ensures |GoalIds(siblings)| == |siblings|
    ensures forall i :: 0 <= i < |siblings| ==>
              && GoalIds(siblings)[i] == GoalId(siblings[i])
              && GoalId(siblings[i]) in States(siblings)
              && States(siblings)[GoalId(siblings[i])] == Terminal(siblings[i].life)
    decreases |siblings|
  {
    hide GoalId, Terminal;
    if siblings != [] {
      StatesExact(siblings[..|siblings| - 1]);
    }
  }

  lemma {:induction false} BranchesMembers(rows: seq<Row>, id: string)
    ensures forall r :: r in Branches(rows, id) <==> r in rows && BranchOf(r, id)
    decreases |rows|
  {
    hide BranchOf;
    if rows != [] {
      BranchesMembers(rows[..|rows| - 1], id);
      assert rows == rows[..|rows| - 1] + [rows[|rows| - 1]];
    }
  }

  lemma {:induction false} BranchesDistinct(plan: Plan, rows: seq<Row>, id: string)
    requires Shaped(plan, rows) && UniqueSources(rows)
    ensures DistinctGoals(Branches(rows, id))
    decreases |rows|
  {
    hide GoalId, Marked, OtherShape;
    if rows != [] {
      var front, last := rows[..|rows| - 1], rows[|rows| - 1];
      BranchesDistinct(plan, front, id);
      BranchesMembers(front, id);
      var before := Branches(front, id);
      if BranchOf(last, id) {
        forall k | 0 <= k < |before| ensures GoalId(before[k]) != GoalId(last) {
          assert before[k] in front;
          var i :| 0 <= i < |front| && front[i] == before[k];
          assert rows[i] == front[i] && rows[|rows| - 1] == last;
          assert rows[i].source != last.source;
        }
      }
    }
  }

  lemma ReadyExact(siblings: seq<Row>)
    requires DistinctGoals(siblings) && Named(siblings)
    ensures Ready(siblings) <==> siblings != [] && EachStopped(siblings)
  {
    hide GoalId, Terminal;
    StatesExact(siblings);
    hide States, GoalIds, DistinctGoals, Named;
  }

  ghost predicate EachStopped(siblings: seq<Row>) {
    forall i :: 0 <= i < |siblings| ==> Terminal(siblings[i].life)
  }

  lemma BranchesStopped(rows: seq<Row>, id: string)
    ensures AllStopped(rows, id) <==> EachStopped(Branches(rows, id))
  {
    hide Terminal, BranchOf, Branches;
    var all := Branches(rows, id);
    BranchesMembers(rows, id);
    if AllStopped(rows, id) {
      forall i | 0 <= i < |all| ensures Terminal(all[i].life) {
        assert all[i] in all;
      }
    } else {
      var k :| 0 <= k < |rows| && BranchOf(rows[k], id) && !Terminal(rows[k].life);
      assert rows[k] in all;
      var i :| 0 <= i < |all| && all[i] == rows[k];
      assert !Terminal(all[i].life);
    }
  }

  lemma GrantedGoals(plan: Plan, rows: seq<Row>, id: string)
    requires ValidPlan(plan) && id in plan && Shaped(plan, rows)
    ensures forall i :: 0 <= i < |Branches(rows, id)| ==>
              GoalId(Branches(rows, id)[i]) in plan[id].goals && GoalId(Branches(rows, id)[i]) != ""
  {
    hide Marked, GoalId, OtherShape, Blank, Branches;
    var all := Branches(rows, id);
    BranchesMembers(rows, id);
    EmptyIsBlank();
    forall i | 0 <= i < |all| ensures GoalId(all[i]) in plan[id].goals && GoalId(all[i]) != "" {
      assert all[i] in all;
      var k :| 0 <= k < |rows| && rows[k] == all[i];
      assert BranchShape(plan, rows[k]);
    }
  }

  /** With every branch row admitted, the capped, goal-keyed reading of the siblings
      says ready exactly when every branch has stopped. */
  lemma ReadyMeansAllStopped(plan: Plan, rows: seq<Row>, id: string)
    requires ValidPlan(plan) && id in plan && Shaped(plan, rows) && UniqueSources(rows) && Opened(plan, rows, id)
    ensures Ready(Listed(rows, id, SIBLING_LIMIT)) <==> AllStopped(rows, id)
  {
    hide Marked, Terminal, Shaped, UniqueSources, GoalId, Opened, Branches, Blank, Ready, AllStopped;
    var all := Branches(rows, id);
    BranchesDistinct(plan, rows, id);
    GrantedGoals(plan, rows, id);
    BranchesStopped(rows, id);
    SomeBranch(plan, rows, id);
    ReadyExact(all);
    StatesExact(all);
    assert forall x :: x in GoalIds(all) ==> x in plan[id].goals;
    NoMoreThan(GoalIds(all), plan[id].goals);
  }

  /** The phases that stop a branch, one by one. */
  lemma ReadyByPhase(plan: Plan, rows: seq<Row>, id: string)
    requires ValidPlan(plan) && id in plan && Shaped(plan, rows) && UniqueSources(rows) && Opened(plan, rows, id)
    ensures Ready(Listed(rows, id, SIBLING_LIMIT))
       <==> forall i :: 0 <= i < |rows| && BranchOf(rows[i], id) ==>
              rows[i].life in {"completed", "failed", "refused", "cancelled", "superseded", "blocked"}
  {
    hide Ready, Listed, Shaped, UniqueSources, Opened, BranchOf, ValidPlan;
    ReadyMeansAllStopped(plan, rows, id);
  }

  lemma EmptyIsBlank()
    ensures Blank("")
  {
    TrimFixed("");
  }

  lemma SomeBranch(plan: Plan, rows: seq<Row>, id: string)
    requires ValidPlan(plan) && id in plan && Shaped(plan, rows) && Opened(plan, rows, id)
    ensures Branches(rows, id) != []
  {
    hide Marked, GoalId, Blank;
    var goal := plan[id].goals[0];
    var i :| 0 <= i < |rows| && rows[i].kind == FANOUT_KIND && rows[i].source == BranchSourceId(id, goal);
    BranchesMembers(rows, id);
    RowOfSource(plan, rows[i], id, goal);
    assert rows[i] in Branches(rows, id);
  }

  /** A row filed under a branch's source id is that branch's row. */
  lemma RowOfSource(plan: Plan, row: Row, id: string, goal: string)
    requires ValidPlan(plan) && id in plan && goal in plan[id].goals
    requires row.kind == FANOUT_KIND && row.source == BranchSourceId(id, goal)
    requires if Marked(row.key) then BranchShape(plan, row) else OtherShape(plan, row)
    ensures BranchOf(row, id) && GoalId(row) == goal
  {
    hide Marked, GoalId, Blank;
    if Marked(row.key) {
      BranchSourceIsInjective(row.parent, GoalId(row), id, goal);
    } else {
      var other :| other in plan && row.source == SynthesisSourceId(other);
      SynthesisIsNoBranch(other, id, goal);
      assert false;
    }
  }

  // ---- How the rows may change ----

  /** The same runs under the same names, some of them further on. */
  ghost predicate SameNames(a: seq<Row>, b: seq<Row>) {
    |a| == |b| && forall i :: 0 <= i < |a| ==>
                    a[i].kind == b[i].kind && a[i].source == b[i].source && a[i].key == b[i].key
                    && a[i].parent == b[i].parent && a[i].incident == b[i].incident
  }

  lemma NamesKept(plan: Plan, a: seq<Row>, b: seq<Row>)
    requires SameNames(a, b)
    ensures Shaped(plan, a) ==> Shaped(plan, b)
    ensures UniqueSources(a) ==> UniqueSources(b)
    ensures forall kind, source :: Known(a, kind, source) <==> Known(b, kind, source)
    ensures forall i, id :: 0 <= i < |a| ==> (BranchOf(a[i], id) <==> BranchOf(b[i], id))
  {
    hide Marked, OtherShape;
    if Shaped(plan, a) {
      forall i | 0 <= i < |b| ensures if Marked(b[i].key) then BranchShape(plan, b[i]) else OtherShape(plan, b[i]) {
        assert if Marked(a[i].key) then BranchShape(plan, a[i]) else OtherShape(plan, a[i]);
        OtherShapeByName(plan, a[i], b[i]);
      }
    }
    forall kind, source ensures Known(a, kind, source) <==> Known(b, kind, source) {
      if Known(a, kind, source) {
        var i :| 0 <= i < |a| && a[i].kind == kind && a[i].source == source;
        assert b[i].kind == kind;
      }
      if Known(b, kind, source) {
        var i :| 0 <= i < |b| && b[i].kind == kind && b[i].source == source;
        assert a[i].kind == kind;
      }
    }
  }

  lemma OtherShapeByName(plan: Plan, a: Row, b: Row)
    requires a.kind == b.kind && a.source == b.source
    ensures OtherShape(plan, a) == OtherShape(plan, b)
  {
  }

  lemma KnownAppend(rows: seq<Row>, row: Row)
    ensures forall kind, source ::
              Known(rows + [row], kind, source) <==> Known(rows, kind, source) || (row.kind == kind && row.source == source)
  {
    var more := rows + [row];
    forall kind, source ensures Known(more, kind, source)
                            <==> Known(rows, kind, source) || (row.kind == kind && row.source == source) {
      if Known(rows, kind, source) {
        var i :| 0 <= i < |rows| && rows[i].kind == kind && rows[i].source == source;
        assert more[i] == rows[i];
      }
      assert more[|rows|] == row;
      if Known(more, kind, source) {
        var i :| 0 <= i < |more| && more[i].kind == kind && more[i].source == source;
        assert i < |rows| ==> rows[i] == more[i];
      }
    }
  }

  lemma Appended(plan: Plan, rows: seq<Row>, row: Row)
    requires Shaped(plan, rows) && UniqueSources(rows) && FinishedStopped(rows)
    requires !Known(rows, row.kind, row.source) && row.run.Live?
    requires if Marked(row.key) then BranchShape(plan, row) else OtherShape(plan, row)
    ensures Shaped(plan, rows + [row]) && UniqueSources(rows + [row]) && FinishedStopped(rows + [row])
    ensures forall id :: AllStopped(rows + [row], id) <==> AllStopped(rows, id) && (BranchOf(row, id) ==> Terminal(row.life))
    ensures forall id :: AllFinished(rows + [row], id) <==> AllFinished(rows, id) && !BranchOf(row, id)
  {
    hide Marked, OtherShape, BranchShape, Terminal;
    var more := rows + [row];
    assert more[|rows|] == row;
    assert forall i :: 0 <= i < |rows| ==> more[i] == rows[i];
    forall id ensures AllStopped(more, id) <==> AllStopped(rows, id) && (BranchOf(row, id) ==> Terminal(row.life)) {}
    forall id ensures AllFinished(more, id) <==> AllFinished(rows, id) && !BranchOf(row, id) {}
  }
}
