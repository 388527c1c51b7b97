/** Whole runs of the branch protocol, from an empty store. */
module BranchRuns {
  import opened Options
  import opened Text
  import opened Fanout
  import opened Branching
  import opened BranchProtocol
  import opened BranchSafety

  lemma EmptyKeeps(plan: Plan)
    requires ValidPlan(plan)
    ensures Inv(plan, BranchProtocol.EMPTY)
  {
    forall id | id in plan ensures !Opened(plan, [], id) && !HasSynthesis([], id) {
      assert Sensible(id, plan[id]);
      assert plan[id].goals[0] in plan[id].goals;
    }
  }

  lemma {:induction false} RunKeeps(plan: Plan, s: System, events: seq<Event>)
    requires ValidPlan(plan) && Inv(plan, s)
    ensures Exec(plan, s, events, false).Some? ==> Inv(plan, Exec(plan, s, events, false).value)
    decreases |events|
  {
    hide Inv, ValidPlan, Enabled, Next;
    if events != [] {
      RunKeeps(plan, s, events[..|events| - 1]);
      var t := Exec(plan, s, events[..|events| - 1], false);
      if t.Some? && Enabled(plan, t.value, events[|events| - 1], false) {
        StepKeeps(plan, t.value, events[|events| - 1]);
      }
    }
  }

  ghost predicate OneBranchEach(rows: seq<Row>, id: string) {
    forall i, j :: 0 <= i < j < |rows| && BranchOf(rows[i], id) && BranchOf(rows[j], id) ==>
      GoalId(rows[i]) != GoalId(rows[j])
  }

  ghost predicate OneSynthesis(rows: seq<Row>, id: string) {
    forall i, j :: 0 <= i < j < |rows| && rows[i].kind == FANOUT_KIND && rows[i].source == SynthesisSourceId(id) ==>
      !(rows[j].kind == FANOUT_KIND && rows[j].source == SynthesisSourceId(id))
  }

  lemma UniqueRows(plan: Plan, rows: seq<Row>, id: string)
    requires Shaped(plan, rows) && UniqueSources(rows)
    ensures OneBranchEach(rows, id) && OneSynthesis(rows, id)
  {
    hide Marked, GoalId, SynthesisSourceId, BranchSourceId, OtherShape;
  }

  /** In every run, each lead and goal has at most one branch row, each lead at most
      one synthesis row, and a synthesis only when every branch row of the lead is
      there and has stopped. */
  lemma FanoutSafety(plan: Plan, events: seq<Event>, id: string, s: System)
    requires ValidPlan(plan) && id in plan && Exec(plan, BranchProtocol.EMPTY, events, false) == Some(s)
    ensures OneBranchEach(s.rows, id) && OneSynthesis(s.rows, id)
    ensures HasSynthesis(s.rows, id) ==> Opened(plan, s.rows, id) && AllStopped(s.rows, id)
  {
    EmptyKeeps(plan);
    RunKeeps(plan, BranchProtocol.EMPTY, events);
    hide Exec, Shaped, UniqueSources, Opened, AllStopped, HasSynthesis, OneBranchEach, OneSynthesis;
    UniqueRows(plan, s.rows, id);
  }

  /** Reopening a fan-out whose rows are all there adds no row. */
  lemma ReopeningAddsNothing(plan: Plan, s: System, id: string, goal: string)
    requires id in plan && goal in plan[id].goals && Opened(plan, s.rows, id)
    ensures Next(plan, s, OpenRow(id, goal), false) == s
  {
    hide Known, Busy, BranchConversationKey, BranchSourceId;
    assert Known(s.rows, FANOUT_KIND, BranchSourceId(id, goal));
  }

  /** Once every branch run has finished and no call is in flight, the synthesis is
      there, unless a call was cut off after the last of them finished. */
  lemma FanoutProgress(plan: Plan, events: seq<Event>, id: string)
    requires ValidPlan(plan) && id in plan && Exec(plan, BranchProtocol.EMPTY, events, false).Some?
    ensures var s := Exec(plan, BranchProtocol.EMPTY, events, false).value;
            s.calls == [] && Opened(plan, s.rows, id) && AllFinished(s.rows, id) && id !in s.lost ==>
              HasSynthesis(s.rows, id)
  {
    EmptyKeeps(plan);
    RunKeeps(plan, BranchProtocol.EMPTY, events);
    hide Exec, Marked, GoalId, Terminal, Opened, AllStopped, AllFinished, HasSynthesis;
  }

  /** The event ends a call of Finish with a store error. */
  predicate Fails(s: System, e: Event) {
    match e
    case CutOff(_) => true
    case StoreStep(c) =>
      && c < |s.calls| && s.calls[c].row < |s.rows|
      && (var row := s.rows[s.calls[c].row];
          || (s.calls[c].stage.PhaseWritten? && !row.run.Finalizing?)
          || (s.calls[c].stage == SiblingsRead(true)
              && QueueOutcome(s.rows, SynthesisRow(Lead(row.parent, row.incident))).Conflict?))
    case _ => false
  }

  predicate NoFailure(plan: Plan, events: seq<Event>) {
    events == []
    || (NoFailure(plan, events[..|events| - 1])
        && (var s := Exec(plan, BranchProtocol.EMPTY, events[..|events| - 1], false);
            s.Some? ==> !Fails(s.value, events[|events| - 1])))
  }

  lemma {:induction false} NothingLost(plan: Plan, events: seq<Event>)
    requires NoFailure(plan, events) && Exec(plan, BranchProtocol.EMPTY, events, false).Some?
    ensures Exec(plan, BranchProtocol.EMPTY, events, false).value.lost == {}
    decreases |events|
  {
    hide Enabled, Next, Fails;
    if events != [] {
      var front := events[..|events| - 1];
      NothingLost(plan, front);
      KeepsNothingLost(plan, Exec(plan, BranchProtocol.EMPTY, front, false).value, events[|events| - 1]);
    }
  }

  lemma KeepsNothingLost(plan: Plan, s: System, e: Event)
    requires Enabled(plan, s, e, false) && !Fails(s, e) && s.lost == {}
    ensures Next(plan, s, e, false).lost == {}
  {
    hide Queued, QueueOutcome, Phased, RunFinished, Ready, Listed, BranchRow, AllFinished, SynthesisRow, Without, Opened,
         Marked;
  }

  /** If every call of Finish returned without a store error and every branch has
      been finished, the synthesis exists. */
  lemma CleanFinishesSynthesize(plan: Plan, events: seq<Event>, id: string)
    requires ValidPlan(plan) && id in plan && NoFailure(plan, events)
    requires Exec(plan, BranchProtocol.EMPTY, events, false).Some?
    ensures var s := Exec(plan, BranchProtocol.EMPTY, events, false).value;
            s.calls == [] && Opened(plan, s.rows, id) && AllFinished(s.rows, id) ==> HasSynthesis(s.rows, id)
  {
    hide Exec, NoFailure, Opened, AllFinished, HasSynthesis;
    NothingLost(plan, events);
    FanoutProgress(plan, events, id);
  }

  // ---- Without the assumptions ----

  lemma ExecOne(plan: Plan, events: seq<Event>, s: System, e: Event, eager: bool)
    requires Exec(plan, BranchProtocol.EMPTY, events, eager) == Some(s) && Enabled(plan, s, e, eager)
    ensures Exec(plan, BranchProtocol.EMPTY, events + [e], eager) == Some(Next(plan, s, e, eager))
  {
    hide Enabled, Next;
    assert (events + [e])[..|events|] == events;
  }

  lemma AloneReady(lead: Lead, goal: string, row: Row)
    requires LeadId(lead.episode) && !Blank(goal) && Terminal(row.life)
    requires row == BranchRow(lead, goal).(life := row.life, run := row.run)
    ensures Ready(Listed([row], lead.episode, SIBLING_LIMIT))
  {
    hide Blank, Terminal, Marked, GoalOf, BranchConversationKey;
    GoalRoundTrip("incident:" + lead.incident, goal);
    assert [row][..0] == [] && Branches([row], lead.episode) == [row];
    EmptyIsBlank();
    ReadyExact([row]);
  }

  /** A lead's first branch row, finished, with one call of Finish at some stage. */
  ghost predicate OneBranch(plan: Plan, id: string, g: string, s: System, stage: Stage) {
    && id in plan
    && s == System([BranchRow(Lead(id, plan[id].incident), g).(life := "completed", run := Finished)],
                   [Call(0, true, stage)], {})
  }

  /** The first branch of several is opened, gets its result and closes its run. */
  lemma FirstBranchCloses(plan: Plan, id: string, g: string) returns (events: seq<Event>, s: System)
    requires ValidPlan(plan) && id in plan && g in plan[id].goals
    ensures Exec(plan, BranchProtocol.EMPTY, events, true) == Some(s) && OneBranch(plan, id, g, s, RunClosed)
  {
    hide Exec, Marked, GoalOf, BranchConversationKey, SynthesisSourceId, BranchSourceId, Ready, Listed, Blank, Opened,
         AllFinished;
    assert Sensible(id, plan[id]);
    var lead := Lead(id, plan[id].incident);
    BranchRowShape(plan, id, g);
    var a := BranchRow(lead, g);
    var done := a.(life := "completed", run := Finished);
    events := [];
    assert Exec(plan, BranchProtocol.EMPTY, events, true) == Some(BranchProtocol.EMPTY) by { ExecNone(plan, true); }
    ExecOne(plan, events, BranchProtocol.EMPTY, OpenRow(id, g), true);
    events := events + [OpenRow(id, g)];
    assert Queued([], a) == [a];
    s := System([a], [], {});
    ExecOne(plan, events, s, ResultStaged(0), true);
    events := events + [ResultStaged(0)];
    assert [a][0 := a.(run := Finalizing)] == [a.(run := Finalizing)];
    s := System([a.(run := Finalizing)], [], {});
    ExecOne(plan, events, s, FinishCalled(0, true), true);
    events := events + [FinishCalled(0, true)];
    assert [] + [Call(0, true, Called)] == [Call(0, true, Called)];
    s := System([a.(run := Finalizing)], [Call(0, true, Called)], {});
    ExecOne(plan, events, s, StoreStep(0), true);
    events := events + [StoreStep(0)];
    var written := a.(life := "completed", run := Finalizing);
    assert Phased([a.(run := Finalizing)], 0, "completed") == [written];
    OneCall(Call(0, true, Called), PhaseWritten);
    s := System([written], [Call(0, true, PhaseWritten)], {});
    ExecOne(plan, events, s, StoreStep(0), true);
    events := events + [StoreStep(0)];
    assert RunFinished([written], 0) == [done];
    OneCall(Call(0, true, PhaseWritten), RunClosed);
    s := System([done], [Call(0, true, RunClosed)], {});
  }

  /** And reads its siblings. */
  lemma FirstBranchReads(plan: Plan, id: string, g: string) returns (events: seq<Event>, s: System)
    requires ValidPlan(plan) && id in plan && g in plan[id].goals
    ensures Exec(plan, BranchProtocol.EMPTY, events, true) == Some(s) && OneBranch(plan, id, g, s, SiblingsRead(true))
  {
    hide Exec, Marked, GoalOf, BranchConversationKey, SynthesisSourceId, BranchSourceId, Ready, Listed, Blank, Opened,
         AllFinished;
    events, s := FirstBranchCloses(plan, id, g);
    assert Sensible(id, plan[id]);
    ExecOne(plan, events, s, StoreStep(0), true);
    AloneReady(Lead(id, plan[id].incident), g, s.rows[0]);
    events := events + [StoreStep(0)];
    OneCall(Call(0, true, RunClosed), SiblingsRead(true));
    s := System(s.rows, [Call(0, true, SiblingsRead(true))], {});
  }

  /** Why branches must not be finished while their fan-out is still being opened:
      one that finishes before the second row is admitted makes a synthesis that
      runs while the second branch is still at work. */
  lemma EarlySynthesisWhileOpening(plan: Plan, id: string, g: string, h: string) returns (events: seq<Event>, s: System)
    requires ValidPlan(plan) && id in plan && plan[id].goals == [g, h]
    ensures Exec(plan, BranchProtocol.EMPTY, events, true) == Some(s)
    ensures HasSynthesis(s.rows, id) && !AllStopped(s.rows, id)
  {
    hide Exec, Marked, GoalOf, BranchConversationKey, SynthesisSourceId, BranchSourceId, Ready, Listed, Blank, Opened,
         AllFinished;
    assert Sensible(id, plan[id]) && plan[id].goals[0] == g && plan[id].goals[1] == h;
    assert g in plan[id].goals && h in plan[id].goals;
    var lead := Lead(id, plan[id].incident);
    BranchRowShape(plan, id, g);
    BranchRowShape(plan, id, h);
    assert BranchSourceId(id, g) != BranchSourceId(id, h) by {
      if BranchSourceId(id, g) == BranchSourceId(id, h) { BranchSourceIsInjective(id, g, id, h); }
    }
    var b, c := BranchRow(lead, h), SynthesisRow(lead);
    var done := BranchRow(lead, g).(life := "completed", run := Finished);
    events, s := FirstBranchReads(plan, id, g);
    ExecOne(plan, events, s, StoreStep(0), true);
    events := events + [StoreStep(0)];
    assert Queued([done], c) == [done, c];
    assert Without([Call(0, true, SiblingsRead(true))], 0) == [];
    s := System([done, c], [], {});
    ExecOne(plan, events, s, OpenRow(id, h), true);
    events := events + [OpenRow(id, h)];
    assert Queued([done, c], b) == [done, c, b];
    s := System([done, c, b], [], {});
    assert BranchOf(s.rows[2], id) && !Terminal(s.rows[2].life);
    assert s.rows[1].source == SynthesisSourceId(id);
  }

  lemma OneCall(call: Call, stage: Stage)
    ensures [call][0 := call.(stage := stage)] == [call.(stage := stage)]
  {
  }

  lemma ExecNone(plan: Plan, eager: bool)
    ensures Exec(plan, BranchProtocol.EMPTY, [], eager) == Some(BranchProtocol.EMPTY)
  {
  }

  /** Why a lead may have no more than thirty-two branches: the reading of the
      siblings is capped, and says nothing of the rest. One fan-out opens at most
      three, so only a lead granted fan-out after fan-out comes to so many. */
  lemma CapHidesTheRest(rows: seq<Row>, id: string, k: nat)
    requires !Blank(id) && SIBLING_LIMIT <= k < |Branches(rows, id)|
    requires DistinctGoals(Branches(rows, id)) && Named(Branches(rows, id))
    requires forall i :: 0 <= i < SIBLING_LIMIT ==> Terminal(Branches(rows, id)[i].life)
    requires !Terminal(Branches(rows, id)[k].life)
    ensures Ready(Listed(rows, id, SIBLING_LIMIT)) && !AllStopped(rows, id)
  {
    hide Terminal, GoalId, Blank, Branches;
    ReadyExact(Branches(rows, id)[..SIBLING_LIMIT]);
    BranchesStopped(rows, id);
  }
}
