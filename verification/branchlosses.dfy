/** Whole runs from the empty store that lose the synthesis for good, every row of the
    fan-out admitted before any branch has a result. */
module BranchLosses {
  import opened Counting
  import opened Options
  import opened Text
  import opened Fanout
  import opened Branching
  import opened BranchProtocol
  import opened BranchSafety
  import opened BranchRuns
  import opened BranchRecovery

  function GoalRow(plan: Plan, id: string, k: nat): Row
    requires id in plan && k < |plan[id].goals|
  {
    BranchRow(Lead(id, plan[id].incident), plan[id].goals[k])
  }

  /** The lead's first so many branch rows, the first of them finished. */
  function RowsAt(plan: Plan, id: string, done: nat, open: nat): (r: seq<Row>)
    requires id in plan && open <= |plan[id].goals|
    ensures |r| == open
  {
    seq(open, i requires 0 <= i < open =>
          if i < done then GoalRow(plan, id, i).(life := "completed", run := Finished) else GoalRow(plan, id, i))
  }

  lemma SourcesApart(plan: Plan, id: string, i: nat, j: nat)
    requires ValidPlan(plan) && id in plan && i < j < |plan[id].goals|
    ensures GoalRow(plan, id, i).source != GoalRow(plan, id, j).source
  {
    hide BranchSourceId, Blank, LeadId;
    assert Sensible(id, plan[id]);
    var goals := plan[id].goals;
    if BranchSourceId(id, goals[i]) == BranchSourceId(id, goals[j]) {
      BranchSourceIsInjective(id, goals[i], id, goals[j]);
    }
  }

  /** openBranches: one row after the other. */
  lemma {:induction false} OpenAll(plan: Plan, id: string, k: nat) returns (run: seq<Event>)
    requires ValidPlan(plan) && id in plan && k <= |plan[id].goals|
    ensures Exec(plan, BranchProtocol.EMPTY, run, false) == Some(System(RowsAt(plan, id, 0, k), [], {}))
  {
    hide Exec, ValidPlan, BranchSourceId, BranchConversationKey;
    if k == 0 {
      run := [];
      ExecNone(plan, false);
      assert RowsAt(plan, id, 0, 0) == [];
    } else {
      run := OpenAll(plan, id, k - 1);
      var rows, row := RowsAt(plan, id, 0, k - 1), GoalRow(plan, id, k - 1);
      forall i | 0 <= i < |rows| ensures rows[i].source != row.source {
        SourcesApart(plan, id, i, k - 1);
      }
      assert Queued(rows, row) == rows + [row];
      assert rows + [row] == RowsAt(plan, id, 0, k);
      var e := OpenRow(id, plan[id].goals[k - 1]);
      ExecOne(plan, run, System(rows, [], {}), e, false);
      run := run + [e];
    }
  }

  lemma AllThere(plan: Plan, id: string, rows: seq<Row>)
    requires id in plan && SameNames(RowsAt(plan, id, 0, |plan[id].goals|), rows)
    ensures Opened(plan, rows, id)
  {
    hide BranchSourceId, BranchConversationKey;
    forall goal | goal in plan[id].goals ensures Known(rows, FANOUT_KIND, BranchSourceId(id, goal)) {
      var i :| 0 <= i < |plan[id].goals| && plan[id].goals[i] == goal;
      assert rows[i].source == GoalRow(plan, id, i).source;
    }
  }

  /** After so many branches have finished, and no call is in flight. */
  function DoneAt(plan: Plan, id: string, k: nat): System
    requires id in plan
  {
    System(RowsAt(plan, id, k, |plan[id].goals|), [], {})
  }

  /** The next branch has just closed its run. */
  function ClosedAt(plan: Plan, id: string, k: nat): System
    requires id in plan
  {
    System(RowsAt(plan, id, k + 1, |plan[id].goals|), [Call(k, true, RunClosed)], {})
  }

  /** The next branch's row as it gets its result, and once its phase is written. */
  function StagedAt(plan: Plan, id: string, k: nat, life: string): seq<Row>
    requires id in plan && k < |plan[id].goals|
  {
    RowsAt(plan, id, k, |plan[id].goals|)[k := GoalRow(plan, id, k).(life := life, run := Finalizing)]
  }

  lemma StagedRows(plan: Plan, id: string, k: nat)
    requires ValidPlan(plan) && id in plan && k < |plan[id].goals|
    ensures var n, rows, staged := |plan[id].goals|, RowsAt(plan, id, k, |plan[id].goals|), StagedAt(plan, id, k, "working");
            && |rows| == |staged| == n && rows[k] == GoalRow(plan, id, k) && rows[k].run.Live? && Marked(rows[k].key)
            && rows[k].parent == id
            && rows[k := rows[k].(run := Finalizing)] == staged && Opened(plan, staged, id)
            && Phased(staged, k, "completed") == StagedAt(plan, id, k, "completed")
            && RunFinished(StagedAt(plan, id, k, "completed"), k) == RowsAt(plan, id, k + 1, n)
            && StagedAt(plan, id, k, "completed")[k].run.Finalizing?
  {
    hide ValidPlan, Marked, BranchSourceId, BranchConversationKey, Opened;
    BranchRowShape(plan, id, plan[id].goals[k]);
    AllThere(plan, id, StagedAt(plan, id, k, "working"));
    assert RunFinished(StagedAt(plan, id, k, "completed"), k) == RowsAt(plan, id, k + 1, |plan[id].goals|);
  }

  /** The next branch gets its result, writes its phase and closes its run. */
  lemma CloseNext(plan: Plan, id: string, k: nat, before: seq<Event>) returns (run: seq<Event>)
    requires ValidPlan(plan) && id in plan && k < |plan[id].goals|
    requires Exec(plan, BranchProtocol.EMPTY, before, false) == Some(DoneAt(plan, id, k))
    ensures Exec(plan, BranchProtocol.EMPTY, run, false) == Some(ClosedAt(plan, id, k))
  {
    hide Exec, ValidPlan, Marked, GoalRow, Opened, StagedAt, RowsAt;
    StagedRows(plan, id, k);
    var staged := StagedAt(plan, id, k, "working");
    ExecOne(plan, before, DoneAt(plan, id, k), ResultStaged(k), false);
    run := before + [ResultStaged(k)];
    ExecOne(plan, run, System(staged, [], {}), FinishCalled(k, true), false);
    run := run + [FinishCalled(k, true)];
    assert [] + [Call(k, true, Called)] == [Call(k, true, Called)];
    ExecOne(plan, run, System(staged, [Call(k, true, Called)], {}), StoreStep(0), false);
    run := run + [StoreStep(0)];
    OneCall(Call(k, true, Called), PhaseWritten);
    ExecOne(plan, run, System(StagedAt(plan, id, k, "completed"), [Call(k, true, PhaseWritten)], {}), StoreStep(0), false);
    run := run + [StoreStep(0)];
    OneCall(Call(k, true, PhaseWritten), RunClosed);
  }

  /** The reading is ready exactly when the branch was the last. */
  lemma ReadNext(plan: Plan, id: string, k: nat, before: seq<Event>) returns (run: seq<Event>)
    requires ValidPlan(plan) && id in plan && k < |plan[id].goals|
    requires Exec(plan, BranchProtocol.EMPTY, before, false) == Some(ClosedAt(plan, id, k))
    ensures Exec(plan, BranchProtocol.EMPTY, run, false)
         == Some(ClosedAt(plan, id, k).(calls := [Call(k, true, SiblingsRead(k + 1 == |plan[id].goals|))]))
  {
    hide Exec, ValidPlan, Ready, Listed, RowsAt;
    var s := ClosedAt(plan, id, k);
    var row := RowOf(plan, id, k);
    ExecOne(plan, before, s, StoreStep(0), false);
    run := before + [StoreStep(0)];
    ReadyAtTheLast(plan, id, k, before);
    OneCall(Call(k, true, RunClosed), SiblingsRead(k + 1 == |plan[id].goals|));
  }

  lemma RowOf(plan: Plan, id: string, k: nat) returns (row: Row)
    requires id in plan && k < |plan[id].goals|
    ensures row == RowsAt(plan, id, k + 1, |plan[id].goals|)[k] && row.parent == id && row.incident == plan[id].incident
  {
    hide BranchSourceId, BranchConversationKey;
    row := RowsAt(plan, id, k + 1, |plan[id].goals|)[k];
  }

  lemma ReadyAtTheLast(plan: Plan, id: string, k: nat, before: seq<Event>)
    requires ValidPlan(plan) && id in plan && k < |plan[id].goals|
    requires Exec(plan, BranchProtocol.EMPTY, before, false) == Some(ClosedAt(plan, id, k))
    ensures Ready(Listed(RowsAt(plan, id, k + 1, |plan[id].goals|), id, SIBLING_LIMIT)) <==> k + 1 == |plan[id].goals|
  {
    hide Exec, ValidPlan, Marked, BranchSourceId, BranchConversationKey, Opened, Ready, Listed, Shaped, UniqueSources,
         CallsOk, NoEarlySynthesis, SynthesisOwed, FinishedStopped;
    var n := |plan[id].goals|;
    var rows := RowsAt(plan, id, k + 1, n);
    EmptyKeeps(plan);
    RunKeeps(plan, BranchProtocol.EMPTY, before);
    AllThere(plan, id, rows);
    ReadyMeansAllStopped(plan, rows, id);
    if k + 1 < n {
      BranchRowShape(plan, id, plan[id].goals[n - 1]);
      assert BranchOf(rows[n - 1], id) && rows[n - 1].life == "working";
    }
  }

  /** One branch after the other finishes; each but the last finds another at work. */
  lemma {:induction false} FinishFirst(plan: Plan, id: string, k: nat) returns (run: seq<Event>)
    requires ValidPlan(plan) && id in plan && k < |plan[id].goals|
    ensures Exec(plan, BranchProtocol.EMPTY, run, false) == Some(DoneAt(plan, id, k))
  {
    hide Exec, ValidPlan, RowsAt;
    if k == 0 {
      run := OpenAll(plan, id, |plan[id].goals|);
    } else {
      run := FinishFirst(plan, id, k - 1);
      run := CloseNext(plan, id, k - 1, run);
      run := ReadNext(plan, id, k - 1, run);
      var s := ClosedAt(plan, id, k - 1).(calls := [Call(k - 1, true, SiblingsRead(false))]);
      ExecOne(plan, run, s, StoreStep(0), false);
      run := run + [StoreStep(0)];
      assert Without(s.calls, 0) == [];
    }
  }

  /** Every branch but the last has finished and read its siblings, the last has closed
      its run. */
  lemma LastCloses(plan: Plan, id: string) returns (run: seq<Event>, last: nat)
    requires ValidPlan(plan) && id in plan
    ensures last + 1 == |plan[id].goals|
    ensures Exec(plan, BranchProtocol.EMPTY, run, false) == Some(ClosedAt(plan, id, last))
  {
    hide Exec, RowsAt;
    assert Sensible(id, plan[id]);
    last := |plan[id].goals| - 1;
    hide ValidPlan;
    run := FinishFirst(plan, id, last);
    run := CloseNext(plan, id, last, run);
  }

  lemma AllWaiting(plan: Plan, id: string, more: seq<Row>)
    requires ValidPlan(plan) && id in plan
    requires forall i :: 0 <= i < |more| ==> more[i].kind != FANOUT_KIND && !Marked(more[i].key)
    ensures var n := |plan[id].goals|; Waiting(plan, System(RowsAt(plan, id, n, n) + more, [], {}), id)
  {
    hide ValidPlan, Marked, BranchSourceId, SynthesisSourceId, BranchConversationKey, Known;
    var n := |plan[id].goals|;
    var rows := RowsAt(plan, id, n, n);
    AllThere(plan, id, rows);
    MoreThere(plan, id, rows, more);
    forall i | 0 <= i < |rows + more| ensures (rows + more)[i].kind != FANOUT_KIND || (rows + more)[i].source != SynthesisSourceId(id) {
      if i < n { SynthesisIsNoBranch(id, id, plan[id].goals[i]); }
    }
    assert !HasSynthesis(rows + more, id) by { NotKnown(rows + more, FANOUT_KIND, SynthesisSourceId(id)); }
  }

  lemma NotKnown(rows: seq<Row>, kind: string, source: string)
    requires forall i :: 0 <= i < |rows| ==> rows[i].kind != kind || rows[i].source != source
    ensures !Known(rows, kind, source)
  {
  }

  lemma MoreThere(plan: Plan, id: string, rows: seq<Row>, more: seq<Row>)
    requires id in plan && Opened(plan, rows, id)
    ensures Opened(plan, rows + more, id)
  {
    hide BranchSourceId;
    forall goal | goal in plan[id].goals ensures Known(rows + more, FANOUT_KIND, BranchSourceId(id, goal)) {
      var i :| 0 <= i < |rows| && rows[i].kind == FANOUT_KIND && rows[i].source == BranchSourceId(id, goal);
      assert (rows + more)[i] == rows[i];
    }
  }

  /** Whatever the plan and whichever its lead: a run in which every branch but the last
      returns, the last is cut off after its run was finished, and no run of events
      ever queues the synthesis. */
  lemma RunThatCrashes(plan: Plan, id: string) returns (run: seq<Event>, s: System)
    requires ValidPlan(plan) && id in plan
    ensures Exec(plan, BranchProtocol.EMPTY, run, false) == Some(s)
    ensures s.calls == [] && Waiting(plan, s, id) && !StillPossible(plan, s, id)
  {
    hide Exec, ValidPlan, RowsAt, StillPossible, Waiting, AllFinished;
    var before, last := LastCloses(plan, id);
    var t := ClosedAt(plan, id, last);
    ExecOne(plan, before, t, CutOff(0), false);
    run, s := before + [CutOff(0)], Next(plan, t, CutOff(0), false);
    assert Without(t.calls, 0) == [];
    assert s.rows == RowsAt(plan, id, last + 1, last + 1) + [];
    AllWaiting(plan, id, []);
    SameWaiting(plan, System(s.rows, [], {}), s, id);
    ReachedStillPossible(plan, run, s, id, false);
  }

  lemma SameWaiting(plan: Plan, s: System, t: System, id: string)
    requires Waiting(plan, s, id) && t.rows == s.rows
    ensures Waiting(plan, t, id)
  {
  }

  /** A run of the incident that came from Slack, say. */
  function Bystander(incident: string, run: RunState): Row {
    Row("slack", "message", incident, "", "", "working", run)
  }

  /** The same with no crash at all: a run of the incident is finalizing when the last
      finisher queues. */
  lemma RunThatIsBusy(plan: Plan, id: string) returns (run: seq<Event>, s: System)
    requires ValidPlan(plan) && id in plan
    ensures Exec(plan, BranchProtocol.EMPTY, run, false) == Some(s)
    ensures s.calls == [] && Waiting(plan, s, id) && !StillPossible(plan, s, id)
  {
    hide Exec, ValidPlan, RowsAt, StillPossible, Waiting, AllFinished, Busy, Known, Marked, SynthesisSourceId;
    var before, last := LastCloses(plan, id);
    before := ReadNext(plan, id, last, before);
    var n, incident := last + 1, plan[id].incident;
    var rows, calls := RowsAt(plan, id, n, n), [Call(last, true, SiblingsRead(true))];
    var live, busy := Bystander(incident, Live), Bystander(incident, Finalizing);
    UnmarkedEmpty();
    FreeForBystander(plan, id);
    ExecOne(plan, before, System(rows, calls, {}), OtherRun(live), false);
    assert Queued(rows, live) == rows + [live];
    var t := System(rows + [live], calls, {});
    ExecOne(plan, before + [OtherRun(live)], t, OtherMoves(n, "working", Finalizing), false);
    assert t.rows[n := busy] == rows + [busy];
    var u := System(rows + [busy], calls, {});
    run := before + [OtherRun(live)] + [OtherMoves(n, "working", Finalizing)];
    var row := RowOf(plan, id, last);
    assert (rows + [busy])[last] == row && (rows + [busy])[n] == busy;
    IsBusy(rows + [busy], n, incident);
    ExecOne(plan, run, u, StoreStep(0), false);
    run, s := run + [StoreStep(0)], Next(plan, u, StoreStep(0), false);
    assert Without(calls, 0) == [];
    AllWaiting(plan, id, [busy]);
    SameWaiting(plan, System(rows + [busy], [], {}), s, id);
    ReachedStillPossible(plan, run, s, id, false);
  }

  lemma IsBusy(rows: seq<Row>, i: nat, incident: string)
    requires i < |rows| && rows[i].incident == incident && rows[i].run.Finalizing?
    ensures Busy(rows, incident)
  {
  }

  lemma FreeForBystander(plan: Plan, id: string)
    requires id in plan
    ensures var n := |plan[id].goals|;
            QueueOutcome(RowsAt(plan, id, n, n), Bystander(plan[id].incident, Live)).Inserted?
  {
    hide BranchSourceId, BranchConversationKey;
  }

  lemma UnmarkedEmpty()
    ensures !Marked("")
  {
  }
}
