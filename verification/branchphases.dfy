/** What the branch rows say of their branches: opened at work, and stopped as the last
    call of Finish was told; and the uninterrupted methods as runs of the protocol. */
module BranchPhases {
  import opened Options
  import opened Text
  import opened Fanout
  import opened Branching
  import opened BranchProtocol
  import opened BranchSafety
  import opened BranchRuns
  import opened BranchRecovery

  // ---- The phase of a branch ----

  /** What the last call that wrote the phase of a row was told: did the branch complete? */
  function LastTold(plan: Plan, run: seq<Event>, eager: bool, i: nat): Option<bool>
    decreases |run|
  {
    if run == [] then None
    else
      var front, e := run[..|run| - 1], run[|run| - 1];
      match Exec(plan, BranchProtocol.EMPTY, front, eager)
      case None => None
      case Some(s) =>
        if e.StoreStep? && e.call < |s.calls| && s.calls[e.call].stage.Called? && s.calls[e.call].row == i
        then Some(s.calls[e.call].completed)
        else LastTold(plan, front, eager, i)
  }

  /** In every run, a branch is at work until a call of Finish writes its phase, and from
      then on it reads as the last such call was told. */
  lemma {:induction false} PhaseIsAsTold(plan: Plan, run: seq<Event>, eager: bool, s: System, i: nat)
    requires ValidPlan(plan) && Exec(plan, BranchProtocol.EMPTY, run, eager) == Some(s)
    requires i < |s.rows| && Marked(s.rows[i].key)
    ensures s.rows[i].life == match LastTold(plan, run, eager, i)
                              case None => "working"
                              case Some(completed) => if completed then "completed" else "blocked"
    decreases |run|
  {
    hide Enabled, Next, Marked, ValidPlan;
    if run != [] {
      var front, e := run[..|run| - 1], run[|run| - 1];
      var t := Exec(plan, BranchProtocol.EMPTY, front, eager).value;
      EmptyGround(plan);
      GroundRuns(plan, BranchProtocol.EMPTY, front, eager);
      RowStays(plan, t, e, eager, i);
      if e.StoreStep? && e.call < |t.calls| { CalledGround(plan, t, e.call); }
      if i < |t.rows| {
        PhaseIsAsTold(plan, front, eager, t, i);
      } else {
        NotYetTold(plan, front, eager, t, i);
      }
    }
  }

  /** A row that is not there yet has been told nothing. */
  lemma {:induction false} NotYetTold(plan: Plan, run: seq<Event>, eager: bool, s: System, i: nat)
    requires ValidPlan(plan) && Exec(plan, BranchProtocol.EMPTY, run, eager) == Some(s) && i >= |s.rows|
    ensures LastTold(plan, run, eager, i) == None
    decreases |run|
  {
    hide Enabled, Next, ValidPlan;
    if run != [] {
      var front, e := run[..|run| - 1], run[|run| - 1];
      var t := Exec(plan, BranchProtocol.EMPTY, front, eager).value;
      EmptyGround(plan);
      GroundRuns(plan, BranchProtocol.EMPTY, front, eager);
      NoFewerRows(plan, t, e, eager);
      NotYetTold(plan, front, eager, t, i);
      if e.StoreStep? && e.call < |t.calls| { CalledGround(plan, t, e.call); }
    }
  }

  lemma NoFewerRows(plan: Plan, s: System, e: Event, eager: bool)
    requires Enabled(plan, s, e, eager)
    ensures |Next(plan, s, e, eager).rows| >= |s.rows|
  {
    hide Marked, Opened, Busy, Known, BranchRow, SynthesisRow, Ready, Listed, AllFinished;
  }

  /** One event changes the phase of a branch row only by writing it. */
  lemma RowStays(plan: Plan, s: System, e: Event, eager: bool, i: nat)
    requires ValidPlan(plan) && Ground(plan, s) && Enabled(plan, s, e, eager)
    requires i < |Next(plan, s, e, eager).rows| && Marked(Next(plan, s, e, eager).rows[i].key)
    ensures var row := Next(plan, s, e, eager).rows[i];
            row.life == (if e.StoreStep? && s.calls[e.call].stage.Called? && s.calls[e.call].row == i
                         then (if s.calls[e.call].completed then "completed" else "blocked")
                         else if i < |s.rows| then s.rows[i].life
                         else "working")
    ensures i < |s.rows| ==> Marked(s.rows[i].key)
    ensures e.StoreStep? ==> e.call < |s.calls|
  {
    hide Ground, Marked, Opened, Busy, Known, Ready, Listed, AllFinished, SynthesisSourceId, BranchSourceId,
         BranchConversationKey, ValidPlan;
    match e
    case StoreStep(c) =>
      CalledGround(plan, s, c);
      GroundIncident(plan, s, s.calls[c].row);
      SynthesisShape(plan, s.rows[s.calls[c].row].parent);
    case _ =>
  }

  /** Every call in flight was made by some FinishCalled, for its row and with what it
      says of the branch. */
  lemma {:induction false} CallsWereMade(plan: Plan, run: seq<Event>, eager: bool, s: System)
    requires Exec(plan, BranchProtocol.EMPTY, run, eager) == Some(s)
    ensures forall c :: c in s.calls ==> FinishCalled(c.row, c.completed) in run
    decreases |run|
  {
    hide Enabled, Next;
    if run != [] {
      var front, e := run[..|run| - 1], run[|run| - 1];
      var t := Exec(plan, BranchProtocol.EMPTY, front, eager).value;
      CallsWereMade(plan, front, eager, t);
      NextCalls(plan, t, e, eager);
      forall c | c in s.calls ensures FinishCalled(c.row, c.completed) in run {
        assert e in run;
        if e != FinishCalled(c.row, c.completed) {
          var before :| before in t.calls && before.row == c.row && before.completed == c.completed;
          assert FinishCalled(before.row, before.completed) in front;
        }
      }
    }
  }

  lemma NextCalls(plan: Plan, s: System, e: Event, eager: bool)
    requires Enabled(plan, s, e, eager)
    ensures forall c :: c in Next(plan, s, e, eager).calls ==>
              || e == FinishCalled(c.row, c.completed)
              || exists before :: before in s.calls && before.row == c.row && before.completed == c.completed
  {
    hide Marked, Opened, Queued, QueueOutcome, BranchRow, SynthesisRow, Ready, Listed, AllFinished, Phased, RunFinished;
  }

  // ---- The methods without interruption ----

  /** The last transaction: queue the synthesis, or nothing. */
  lemma LastStep(s: System, i: nat, completed: bool)
    requires i < |s.rows|
    requires s.calls == [Call(i, completed, SiblingsRead(Ready(Listed(s.rows, s.rows[i].parent, SIBLING_LIMIT))))]
    ensures Stepped(s, 0).calls == []
    ensures Stepped(s, 0).rows == Synthesized(s.rows, Lead(s.rows[i].parent, s.rows[i].incident))
  {
    hide Ready, Listed, AllFinished, Queued, QueueOutcome;
    assert Without(s.calls, 0) == [];
  }

  /** The first two: the phase is written and the run is finished. */
  lemma FirstSteps(plan: Plan, s: System, i: nat, completed: bool) returns (t: System)
    requires s.calls == [] && i < |s.rows| && Enabled(plan, s, FinishCalled(i, completed), true)
    requires s.rows[i].run.Finalizing?
    ensures Exec(plan, s, [FinishCalled(i, completed), StoreStep(0), StoreStep(0)], true) == Some(t)
    ensures t.calls == [Call(i, completed, RunClosed)]
    ensures t.rows == RunFinished(Phased(s.rows, i, if completed then "completed" else "blocked"), i)
  {
    hide Exec, Marked, Opened;
    var call := Call(i, completed, Called);
    var phased := Phased(s.rows, i, if completed then "completed" else "blocked");
    assert Exec(plan, s, [], true) == Some(s) by { ExecEmpty(plan, s); }
    ExecNext(plan, s, [], s, FinishCalled(i, completed));
    var one := [] + [FinishCalled(i, completed)];
    assert [] + [call] == [call];
    ExecNext(plan, s, one, System(s.rows, [call], s.lost), StoreStep(0));
    OneCall(call, PhaseWritten);
    ExecNext(plan, s, one + [StoreStep(0)], System(phased, [call.(stage := PhaseWritten)], s.lost), StoreStep(0));
    OneCall(call.(stage := PhaseWritten), RunClosed);
    t := System(RunFinished(phased, i), [call.(stage := RunClosed)], s.lost);
    assert one + [StoreStep(0)] + [StoreStep(0)] == [FinishCalled(i, completed), StoreStep(0), StoreStep(0)];
  }

  /** Finish, called and run to its end with nothing in between, does to the rows what
      its transactions do one after the other. */
  lemma FinishIsItsSteps(plan: Plan, s: System, i: nat, completed: bool) returns (t: System)
    requires s.calls == [] && i < |s.rows| && Enabled(plan, s, FinishCalled(i, completed), true)
    requires s.rows[i].run.Finalizing?
    ensures Exec(plan, s, [FinishCalled(i, completed), StoreStep(0), StoreStep(0), StoreStep(0), StoreStep(0)], true)
         == Some(t)
    ensures t.calls == []
    ensures t.rows == Synthesized(RunFinished(Phased(s.rows, i, if completed then "completed" else "blocked"), i),
                                  Lead(s.rows[i].parent, s.rows[i].incident))
  {
    var c := FirstSteps(plan, s, i, completed);
    hide Exec, Marked, Opened, Ready, Listed, Queued, QueueOutcome, AllFinished, Synthesized;
    var run := [FinishCalled(i, completed), StoreStep(0), StoreStep(0)];
    ExecNext(plan, s, run, c, StoreStep(0));
    var ready := Ready(Listed(c.rows, c.rows[i].parent, SIBLING_LIMIT));
    OneCall(Call(i, completed, RunClosed), SiblingsRead(ready));
    var d := c.(calls := [Call(i, completed, SiblingsRead(ready))]);
    ExecNext(plan, s, run + [StoreStep(0)], d, StoreStep(0));
    LastStep(d, i, completed);
    t := Stepped(d, 0);
    assert run + [StoreStep(0)] + [StoreStep(0)]
        == [FinishCalled(i, completed), StoreStep(0), StoreStep(0), StoreStep(0), StoreStep(0)];
  }

  /** openBranches admits the goals in order: while the incident is free, every branch not
      there yet gets a row at work under its own key, after the rows there were. */
  lemma {:induction false} OpenedInOrder(rows: seq<Row>, lead: Lead, goals: seq<string>)
    requires !Busy(rows, lead.incident)
    requires forall goal :: goal in goals ==> !Known(rows, FANOUT_KIND, "branch_" + lead.episode + "_" + goal)
    requires forall i, j :: 0 <= i < j < |goals| ==> goals[i] != goals[j]
    ensures AllAdmitted(rows, lead, goals)
    ensures OpenedRows(rows, lead, goals)
         == rows + seq(|goals|, i requires 0 <= i < |goals| =>
                         Row(FANOUT_KIND, "branch_" + lead.episode + "_" + goals[i], lead.incident, lead.episode,
                             BranchConversationKey("incident:" + lead.incident, goals[i]), "working", Live))
  {
    hide BranchConversationKey;
    if goals != [] {
      var n := |goals| - 1;
      var front, goal := goals[..n], goals[n];
      OpenedInOrder(rows, lead, front);
      var before, row := OpenedRows(rows, lead, front), BranchRow(lead, goal);
      assert goal in goals;
      forall i | 0 <= i < |before| && before[i].kind == FANOUT_KIND ensures before[i].source != row.source {
        if i < |rows| {
          assert rows[i] == before[i];
        } else {
          SourceTellsGoal(lead.episode, front[i - |rows|], goal);
        }
      }
      assert !Busy(before, lead.incident);
      assert Queued(before, row) == before + [row];
    }
  }

  lemma SourceTellsGoal(lead: string, a: string, b: string)
    requires a != b
    ensures BranchSourceId(lead, a) != BranchSourceId(lead, b)
  {
    var n := |"branch_" + lead + "_"|;
    assert BranchSourceId(lead, a)[n..] == a && BranchSourceId(lead, b)[n..] == b;
  }
}
