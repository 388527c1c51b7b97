/** What every step of the branch protocol keeps, and what that means for a run. */
module BranchSafety {
  import opened Options
  import opened Text
  import opened Fanout
  import opened Branching
  import opened BranchProtocol

  // ---- Rows added ----

  lemma OpenedGrows(plan: Plan, rows: seq<Row>, row: Row, id: string)
    requires id in plan && Opened(plan, rows, id)
    ensures Opened(plan, rows + [row], id)
  {
    KnownAppend(rows, row);
    hide Known;
  }

  /** A lead whose branches are all there gets no further branch row. */
  lemma NewlyOpened(plan: Plan, rows: seq<Row>, row: Row, id: string)
    requires ValidPlan(plan) && id in plan && Opened(plan, rows + [row], id)
    requires if Marked(row.key) then BranchShape(plan, row) else OtherShape(plan, row)
    ensures Opened(plan, rows, id) || BranchOf(row, id)
  {
    hide Marked, GoalId, Blank, Known;
    KnownAppend(rows, row);
    forall goal | goal in plan[id].goals ensures Known(rows, FANOUT_KIND, BranchSourceId(id, goal)) || BranchOf(row, id) {
      if !Known(rows, FANOUT_KIND, BranchSourceId(id, goal)) {
        assert Known(rows + [row], FANOUT_KIND, BranchSourceId(id, goal));
        RowOfSource(plan, row, id, goal);
      }
    }
  }

  ghost predicate Quiet(plan: Plan, rows: seq<Row>, row: Row) {
    forall id :: id in plan && Opened(plan, rows, id) ==> !BranchOf(row, id)
  }

  lemma CallsGrow(plan: Plan, s: System, row: Row)
    requires Shaped(plan, s.rows) && UniqueSources(s.rows) && FinishedStopped(s.rows) && CallsOk(plan, s)
    requires !Known(s.rows, row.kind, row.source) && row.run.Live? && Quiet(plan, s.rows, row)
    requires if Marked(row.key) then BranchShape(plan, row) else OtherShape(plan, row)
    ensures CallsOk(plan, s.(rows := s.rows + [row]))
  {
    hide Marked, OtherShape, BranchShape, Terminal, Opened, AllStopped, BranchOf, Known, Shaped, UniqueSources,
         FinishedStopped;
    Appended(plan, s.rows, row);
    forall c | c in s.calls ensures CallOk(plan, s.rows + [row], c) {
      assert CallOk(plan, s.rows, c);
      OpenedGrows(plan, s.rows, row, s.rows[c.row].parent);
    }
  }

  lemma RowsGrow(plan: Plan, s: System, row: Row)
    requires ValidPlan(plan) && Inv(plan, s)
    requires !Known(s.rows, row.kind, row.source) && row.run.Live? && Quiet(plan, s.rows, row)
    requires if Marked(row.key) then BranchShape(plan, row) else OtherShape(plan, row)
    requires forall id :: id in plan && row.kind == FANOUT_KIND ==> row.source != SynthesisSourceId(id)
    ensures Inv(plan, s.(rows := s.rows + [row]))
  {
    hide Marked, OtherShape, BranchShape, Terminal, Opened, AllStopped, AllFinished, BranchOf, Known, Shaped,
         UniqueSources, FinishedStopped, CallsOk, Sensible, SynthesisSourceId;
    CallsGrow(plan, s, row);
    Appended(plan, s.rows, row);
    KnownAppend(s.rows, row);
    var t := s.(rows := s.rows + [row]);
    forall id | id in plan && HasSynthesis(t.rows, id) ensures Opened(plan, t.rows, id) && AllStopped(t.rows, id) {
      OpenedGrows(plan, s.rows, row, id);
    }
    forall id | id in plan && Opened(plan, t.rows, id) && AllFinished(t.rows, id) && id !in t.lost && !HasSynthesis(t.rows, id)
      ensures exists c :: c in t.calls && OwedBy(t, id, c)
    {
      NewlyOpened(plan, s.rows, row, id);
      var c :| c in s.calls && OwedBy(s, id, c);
      assert OwedBy(t, id, c);
    }
  }

  lemma BranchRowShape(plan: Plan, id: string, goal: string)
    requires ValidPlan(plan) && id in plan && goal in plan[id].goals
    ensures var row := BranchRow(Lead(id, plan[id].incident), goal);
            Marked(row.key) && BranchShape(plan, row) && GoalId(row) == goal
    ensures forall other: string :: BranchSourceId(id, goal) != SynthesisSourceId(other)
  {
    hide GoalOf, Marked, Blank, BranchConversationKey, SynthesisSourceId, BranchSourceId;
    EmptyIsBlank();
    GoalRoundTrip("incident:" + plan[id].incident, goal);
    forall other: string ensures BranchSourceId(id, goal) != SynthesisSourceId(other) {
      SynthesisIsNoBranch(other, id, goal);
    }
  }

  lemma OpenKeeps(plan: Plan, s: System, id: string, goal: string)
    requires ValidPlan(plan) && Inv(plan, s) && id in plan && goal in plan[id].goals
    ensures Inv(plan, Next(plan, s, OpenRow(id, goal), false))
  {
    hide Inv, Marked, GoalId, BranchShape, Known, Busy, ValidPlan, BranchConversationKey, BranchSourceId, SynthesisSourceId;
    var row := BranchRow(Lead(id, plan[id].incident), goal);
    BranchRowShape(plan, id, goal);
    if QueueOutcome(s.rows, row).Inserted? {
      RowsGrow(plan, s, row);
    }
  }

  lemma OtherRunKeeps(plan: Plan, s: System, row: Row)
    requires ValidPlan(plan) && Inv(plan, s) && row.kind != FANOUT_KIND && !Marked(row.key) && row.run.Live?
    ensures Inv(plan, Next(plan, s, OtherRun(row), false))
  {
    hide Inv, Marked, Known, Busy, ValidPlan;
    if QueueOutcome(s.rows, row).Inserted? {
      RowsGrow(plan, s, row);
    }
  }

  // ---- Rows moving on ----

  /** Branch rows only go forward. */
  ghost predicate Forward(a: seq<Row>, b: seq<Row>) {
    SameNames(a, b)
    && forall i :: 0 <= i < |a| && Marked(a[i].key) ==>
         && (Terminal(a[i].life) ==> Terminal(b[i].life))
         && (!a[i].run.Live? ==> !b[i].run.Live?)
         && (a[i].run.Finished? ==> b[i].run.Finished?)
         && (b[i].run.Finished? ==> Terminal(b[i].life))
  }

  lemma MovedOn(plan: Plan, a: seq<Row>, b: seq<Row>)
    requires Forward(a, b) && Shaped(plan, a) && UniqueSources(a)
    ensures Shaped(plan, b) && UniqueSources(b) && FinishedStopped(b)
    ensures forall id :: AllStopped(a, id) ==> AllStopped(b, id)
    ensures forall id :: HasSynthesis(a, id) <==> HasSynthesis(b, id)
    ensures forall id :: id in plan ==> (Opened(plan, a, id) <==> Opened(plan, b, id))
    ensures NoEarlySynthesis(plan, a) ==> NoEarlySynthesis(plan, b)
  {
    hide Shaped, UniqueSources, Known, Terminal, Marked;
    NamesKept(plan, a, b);
    forall id | AllStopped(a, id) ensures AllStopped(b, id) {
      forall i | 0 <= i < |b| && BranchOf(b[i], id) ensures Terminal(b[i].life) {
        assert BranchOf(a[i], id);
      }
    }
  }

  lemma CallMovedOn(plan: Plan, a: seq<Row>, b: seq<Row>, c: Call)
    requires Forward(a, b) && Shaped(plan, a) && UniqueSources(a) && CallOk(plan, a, c)
    ensures CallOk(plan, b, c)
  {
    hide Shaped, UniqueSources, Known, Terminal, Marked, AllStopped, Opened, NoEarlySynthesis;
    MovedOn(plan, a, b);
  }

  /** A change that finishes no branch run. */
  ghost predicate NoneFinished(a: seq<Row>, b: seq<Row>) {
    |a| == |b| && forall i :: 0 <= i < |a| && Marked(a[i].key) && b[i].run.Finished? ==> a[i].run.Finished?
  }

  lemma RowsMoveOn(plan: Plan, s: System, rows: seq<Row>)
    requires Inv(plan, s) && Forward(s.rows, rows) && NoneFinished(s.rows, rows)
    ensures Inv(plan, s.(rows := rows))
  {
    hide Shaped, UniqueSources, Known, Terminal, Marked, AllStopped, Opened, NoEarlySynthesis, FinishedStopped, CallOk,
         HasSynthesis;
    MovedOn(plan, s.rows, rows);
    forall c | c in s.calls ensures CallOk(plan, rows, c) {
      CallMovedOn(plan, s.rows, rows, c);
    }
    var t := s.(rows := rows);
    forall id | id in plan && Opened(plan, rows, id) && AllFinished(rows, id) && id !in t.lost && !HasSynthesis(rows, id)
      ensures exists c :: c in t.calls && OwedBy(t, id, c)
    {
      assert AllFinished(s.rows, id);
      var c :| c in s.calls && OwedBy(s, id, c);
      assert OwedBy(t, id, c);
    }
  }

  lemma OtherMovesKeeps(plan: Plan, s: System, at: nat, life: string, run: RunState)
    requires Inv(plan, s) && at < |s.rows| && !Marked(s.rows[at].key)
    ensures Inv(plan, Next(plan, s, OtherMoves(at, life, run), false))
  {
    hide Inv, Marked, Terminal;
    StoppedOnes(plan, s);
    RowsMoveOn(plan, s, s.rows[at := s.rows[at].(life := life, run := run)]);
  }

  lemma StoppedOnes(plan: Plan, s: System)
    requires Inv(plan, s)
    ensures forall i :: 0 <= i < |s.rows| && Marked(s.rows[i].key) && s.rows[i].run.Finished? ==> Terminal(s.rows[i].life)
  {
    hide Marked, Terminal;
  }

  lemma ResultKeeps(plan: Plan, s: System, at: nat)
    requires Inv(plan, s) && at < |s.rows| && Marked(s.rows[at].key) && s.rows[at].run.Live?
    ensures Inv(plan, Next(plan, s, ResultStaged(at), false))
  {
    hide Inv, Marked, Terminal;
    StoppedOnes(plan, s);
    RowsMoveOn(plan, s, s.rows[at := s.rows[at].(run := Finalizing)]);
  }

  // ---- Calls ----

  lemma CallKeeps(plan: Plan, s: System, at: nat, completed: bool)
    requires Inv(plan, s) && Enabled(plan, s, FinishCalled(at, completed), false)
    ensures Inv(plan, Next(plan, s, FinishCalled(at, completed), false))
  {
    hide Shaped, UniqueSources, FinishedStopped, NoEarlySynthesis, Marked, Terminal, Opened, AllStopped, AllFinished,
         HasSynthesis;
    var t := Next(plan, s, FinishCalled(at, completed), false);
    assert CallOk(plan, s.rows, Call(at, completed, Called));
    forall id | id in plan && Opened(plan, t.rows, id) && AllFinished(t.rows, id) && id !in t.lost && !HasSynthesis(t.rows, id)
      ensures exists c :: c in t.calls && OwedBy(t, id, c)
    {
      var c :| c in s.calls && OwedBy(s, id, c);
      assert c in t.calls && OwedBy(t, id, c);
    }
  }

  lemma WithoutMembers(calls: seq<Call>, c: nat)
    requires c < |calls|
    ensures forall x :: x in Without(calls, c) ==> x in calls
    ensures forall x :: x in calls && x != calls[c] ==> x in Without(calls, c)
  {
    forall x | x in calls && x != calls[c] ensures x in Without(calls, c) {
      var i :| 0 <= i < |calls| && calls[i] == x;
      if i < c {
        assert calls[..c][i] == x;
      } else {
        assert calls[c + 1..][i - c - 1] == x;
      }
    }
  }

  /** A call that ends without having owed a synthesis, or that is counted lost. */
  lemma EndKeeps(plan: Plan, s: System, c: nat, failed: bool)
    requires Inv(plan, s) && c < |s.calls| && s.calls[c].row < |s.rows|
    requires failed || !Owing(s.calls[c].stage)
    ensures Inv(plan, Ended(s, c, s.rows, failed))
  {
    hide Shaped, UniqueSources, FinishedStopped, NoEarlySynthesis, Marked, Terminal, Opened, AllStopped, AllFinished,
         HasSynthesis, Without, CallOk;
    WithoutMembers(s.calls, c);
    var t := Ended(s, c, s.rows, failed);
    forall id | id in plan && Opened(plan, t.rows, id) && AllFinished(t.rows, id) && id !in t.lost && !HasSynthesis(t.rows, id)
      ensures exists x :: x in t.calls && OwedBy(t, id, x)
    {
      var x :| x in s.calls && OwedBy(s, id, x);
      assert x != s.calls[c];
      assert x in t.calls && OwedBy(t, id, x);
    }
  }

  /** The call, one transaction later, still keeps its promise. */
  lemma MoveKeeps(plan: Plan, s: System, c: nat, rows: seq<Row>, stage: Stage)
    requires Inv(plan, s) && c < |s.calls| && s.calls[c].row < |s.rows| && Forward(s.rows, rows)
    requires CallOk(plan, rows, s.calls[c].(stage := stage))
    requires Owing(s.calls[c].stage) ==> Owing(stage) || !AllFinished(rows, s.rows[s.calls[c].row].parent)
    requires forall id :: AllFinished(rows, id) ==>
               AllFinished(s.rows, id) || (id == s.rows[s.calls[c].row].parent && Owing(stage))
    ensures Inv(plan, Moved(s, c, rows, stage))
  {
    hide Shaped, UniqueSources, FinishedStopped, NoEarlySynthesis, Marked, Terminal, Opened, AllStopped, AllFinished,
         HasSynthesis, CallOk;
    MovedOn(plan, s.rows, rows);
    var t := Moved(s, c, rows, stage);
    var call := s.calls[c].(stage := stage);
    assert t.calls[c] == call;
    forall x | x in t.calls ensures CallOk(plan, rows, x) {
      if x != call {
        CallMovedOn(plan, s.rows, rows, x);
      }
    }
    forall id | id in plan && Opened(plan, rows, id) && AllFinished(rows, id) && id !in t.lost && !HasSynthesis(rows, id)
      ensures exists x :: x in t.calls && OwedBy(t, id, x)
    {
      if AllFinished(s.rows, id) {
        var k :| 0 <= k < |s.calls| && OwedBy(s, id, s.calls[k]);
        assert t.calls[k] in t.calls && OwedBy(t, id, t.calls[k]);
      } else {
        assert OwedBy(t, id, call);
      }
    }
  }

  lemma PhaseKeeps(plan: Plan, s: System, c: nat)
    requires Inv(plan, s) && c < |s.calls| && s.calls[c].row < |s.rows| && s.calls[c].stage.Called?
    ensures Inv(plan, Stepped(s, c))
  {
    hide Inv, Marked, CallOk;
    var call := s.calls[c];
    var rows := Phased(s.rows, call.row, StoppedAs(call.completed));
    StoppedOnes(plan, s);
    assert Forward(s.rows, rows);
    assert forall id :: AllFinished(rows, id) ==> AllFinished(s.rows, id) by {
      forall id | AllFinished(rows, id) ensures AllFinished(s.rows, id) {
        forall i | 0 <= i < |s.rows| && BranchOf(s.rows[i], id) ensures s.rows[i].run.Finished? {
          assert BranchOf(rows[i], id);
        }
      }
    }
    PhasedCall(plan, s, c, rows);
    MoveKeeps(plan, s, c, rows, PhaseWritten);
  }

  lemma PhasedCall(plan: Plan, s: System, c: nat, rows: seq<Row>)
    requires Inv(plan, s) && c < |s.calls| && s.calls[c].stage.Called? && Forward(s.rows, rows)
    requires s.calls[c].row < |s.rows| && Terminal(rows[s.calls[c].row].life)
    ensures CallOk(plan, rows, s.calls[c].(stage := PhaseWritten))
  {
    hide Shaped, UniqueSources, FinishedStopped, NoEarlySynthesis, SynthesisOwed, Marked, Terminal, Opened, AllStopped;
    assert CallOk(plan, s.rows, s.calls[c]);
    CallMovedOn(plan, s.rows, rows, s.calls[c]);
  }

  lemma CloseKeeps(plan: Plan, s: System, c: nat)
    requires Inv(plan, s) && c < |s.calls| && s.calls[c].row < |s.rows| && s.calls[c].stage.PhaseWritten?
    ensures Inv(plan, Stepped(s, c))
  {
    hide Inv, Marked, Terminal, CallOk, Opened;
    var call := s.calls[c];
    if s.rows[call.row].run.Finalizing? {
      var rows := RunFinished(s.rows, call.row);
      StoppedOnes(plan, s);
      CalledRow(plan, s, c);
      assert Forward(s.rows, rows);
      forall id | AllFinished(rows, id) ensures AllFinished(s.rows, id) || id == s.rows[call.row].parent {
        if id != s.rows[call.row].parent {
          forall i | 0 <= i < |s.rows| && BranchOf(s.rows[i], id) ensures s.rows[i].run.Finished? {
            assert BranchOf(rows[i], id);
          }
        }
      }
      ClosedCall(plan, s, c, rows);
      MoveKeeps(plan, s, c, rows, RunClosed);
    } else {
      EndKeeps(plan, s, c, true);
    }
  }

  lemma CalledRow(plan: Plan, s: System, c: nat)
    requires Inv(plan, s) && c < |s.calls|
    ensures CallOk(plan, s.rows, s.calls[c])
    ensures var row := s.rows[s.calls[c].row];
            Marked(row.key) && (s.calls[c].stage.PhaseWritten? ==> Terminal(row.life))
  {
    hide Shaped, UniqueSources, FinishedStopped, NoEarlySynthesis, SynthesisOwed, Marked, Terminal, Opened, AllStopped;
    assert s.calls[c] in s.calls;
  }

  lemma ClosedCall(plan: Plan, s: System, c: nat, rows: seq<Row>)
    requires Inv(plan, s) && c < |s.calls| && s.calls[c].stage.PhaseWritten? && Forward(s.rows, rows)
    requires s.calls[c].row < |s.rows| && rows[s.calls[c].row].run.Finished?
    ensures CallOk(plan, rows, s.calls[c].(stage := RunClosed))
  {
    hide Shaped, UniqueSources, FinishedStopped, NoEarlySynthesis, SynthesisOwed, Marked, Terminal, Opened, AllStopped;
    CalledRow(plan, s, c);
    CallMovedOn(plan, s.rows, rows, s.calls[c]);
  }

  /** Finished runs are stopped ones, so a reading after the last finish says ready. */
  lemma FinishedIsStopped(rows: seq<Row>, id: string)
    requires FinishedStopped(rows) && AllFinished(rows, id)
    ensures AllStopped(rows, id)
  {
    hide Marked, Terminal;
    forall i | 0 <= i < |rows| && BranchOf(rows[i], id) ensures Terminal(rows[i].life) {
      assert rows[i].run.Finished?;
    }
  }

  lemma ReadKeeps(plan: Plan, s: System, c: nat)
    requires ValidPlan(plan) && Inv(plan, s)
    requires c < |s.calls| && s.calls[c].row < |s.rows| && s.calls[c].stage.RunClosed?
    ensures Inv(plan, Stepped(s, c))
  {
    hide Marked, Terminal, Opened, AllStopped, AllFinished, Shaped, UniqueSources, FinishedStopped, NoEarlySynthesis,
         SynthesisOwed, Ready, Listed, Forward, ValidPlan;
    var id := s.rows[s.calls[c].row].parent;
    CalledRow(plan, s, c);
    ReadyMeansAllStopped(plan, s.rows, id);
    if AllFinished(s.rows, id) {
      FinishedIsStopped(s.rows, id);
    }
    StandStill(plan, s);
    MoveKeeps(plan, s, c, s.rows, SiblingsRead(Ready(Listed(s.rows, id, SIBLING_LIMIT))));
  }

  lemma StandStill(plan: Plan, s: System)
    requires Inv(plan, s)
    ensures Forward(s.rows, s.rows)
  {
    hide Marked, Terminal;
  }

  // ---- The synthesis ----

  lemma SynthesisShape(plan: Plan, id: string)
    requires ValidPlan(plan) && id in plan
    ensures var row := SynthesisRow(Lead(id, plan[id].incident));
            !Marked(row.key) && OtherShape(plan, row) && forall other :: !BranchOf(row, other)
    ensures forall other: string :: SynthesisSourceId(other) == SynthesisSourceId(id) <==> other == id
  {
    hide Marked, LeadId, Blank, SynthesisSourceId;
    forall other: string ensures SynthesisSourceId(other) == SynthesisSourceId(id) <==> other == id {
      if SynthesisSourceId(other) == SynthesisSourceId(id) { SynthesisSourceIsInjective(other, id); }
    }
  }

  lemma SynthesisAdded(plan: Plan, s: System, id: string)
    requires ValidPlan(plan) && Inv(plan, s) && id in plan
    requires Opened(plan, s.rows, id) && AllStopped(s.rows, id) && !HasSynthesis(s.rows, id)
    ensures var rows := s.rows + [SynthesisRow(Lead(id, plan[id].incident))];
            Inv(plan, s.(rows := rows)) && HasSynthesis(rows, id)
  {
    hide Marked, OtherShape, BranchShape, Terminal, Opened, AllStopped, AllFinished, BranchOf, Known, Shaped,
         UniqueSources, FinishedStopped, CallsOk, Sensible, SynthesisSourceId;
    var row := SynthesisRow(Lead(id, plan[id].incident));
    SynthesisShape(plan, id);
    CallsGrow(plan, s, row);
    Appended(plan, s.rows, row);
    KnownAppend(s.rows, row);
    var t := s.(rows := s.rows + [row]);
    forall other | other in plan && HasSynthesis(t.rows, other)
      ensures Opened(plan, t.rows, other) && AllStopped(t.rows, other)
    {
      OpenedGrows(plan, s.rows, row, other);
    }
    forall other | other in plan && Opened(plan, t.rows, other) && AllFinished(t.rows, other) && other !in t.lost
                   && !HasSynthesis(t.rows, other)
      ensures exists c :: c in t.calls && OwedBy(t, other, c)
    {
      NewlyOpened(plan, s.rows, row, other);
      var c :| c in s.calls && OwedBy(s, other, c);
      assert OwedBy(t, other, c);
    }
  }

  /** A call that owed a synthesis the lead now has may end. */
  lemma PaidKeeps(plan: Plan, s: System, c: nat)
    requires Inv(plan, s) && c < |s.calls| && s.calls[c].row < |s.rows|
    requires HasSynthesis(s.rows, s.rows[s.calls[c].row].parent)
    ensures Inv(plan, Ended(s, c, s.rows, false))
  {
    hide Shaped, UniqueSources, FinishedStopped, NoEarlySynthesis, Marked, Terminal, Opened, AllStopped, AllFinished,
         HasSynthesis, Without, CallOk;
    WithoutMembers(s.calls, c);
    var t := Ended(s, c, s.rows, false);
    forall id | id in plan && Opened(plan, t.rows, id) && AllFinished(t.rows, id) && id !in t.lost && !HasSynthesis(t.rows, id)
      ensures exists x :: x in t.calls && OwedBy(t, id, x)
    {
      var x :| x in s.calls && OwedBy(s, id, x);
      assert x != s.calls[c];
      assert x in t.calls && OwedBy(t, id, x);
    }
  }

  lemma SynthesizeKeeps(plan: Plan, s: System, c: nat)
    requires ValidPlan(plan) && Inv(plan, s)
    requires c < |s.calls| && s.calls[c].row < |s.rows| && s.calls[c].stage == SiblingsRead(true)
    ensures Inv(plan, Stepped(s, c))
  {
    hide Inv, Marked, Terminal, Opened, AllStopped, AllFinished, Known, Busy, ValidPlan, SynthesisSourceId, GoalId;
    var row := s.rows[s.calls[c].row];
    CalledRow(plan, s, c);
    RowIncident(plan, s, s.calls[c].row);
    var synthesis := SynthesisRow(Lead(row.parent, row.incident));
    if QueueOutcome(s.rows, synthesis).Conflict? {
      EndKeeps(plan, s, c, true);
    } else if QueueOutcome(s.rows, synthesis).AlreadyThere? {
      PaidKeeps(plan, s, c);
    } else {
      SynthesisAdded(plan, s, row.parent);
      PaidKeeps(plan, s.(rows := s.rows + [synthesis]), c);
    }
  }

  lemma RowIncident(plan: Plan, s: System, i: nat)
    requires Inv(plan, s) && i < |s.rows| && Marked(s.rows[i].key)
    ensures s.rows[i].parent in plan && s.rows[i].incident == plan[s.rows[i].parent].incident
  {
    hide Marked, GoalId, CallsOk, NoEarlySynthesis, SynthesisOwed, FinishedStopped, UniqueSources;
  }

  /** Every enabled event keeps the invariant. */
  lemma StepKeeps(plan: Plan, s: System, e: Event)
    requires ValidPlan(plan) && Inv(plan, s) && Enabled(plan, s, e, false)
    ensures Inv(plan, Next(plan, s, e, false))
  {
    hide Inv, ValidPlan, Marked, Opened, Queued, Phased, RunFinished, Ready, Listed, BranchRow, SynthesisRow, Ended, Moved;
    match e
    case OpenRow(id, goal) => OpenKeeps(plan, s, id, goal);
    case OtherRun(row) => OtherRunKeeps(plan, s, row);
    case OtherMoves(at, life, run) => OtherMovesKeeps(plan, s, at, life, run);
    case ResultStaged(at) => ResultKeeps(plan, s, at);
    case FinishCalled(at, completed) => CallKeeps(plan, s, at, completed);
    case CutOff(c) => EndKeeps(plan, s, c, true);
    case StoreStep(c) =>
      match s.calls[c].stage
      case Called => PhaseKeeps(plan, s, c);
      case PhaseWritten => CloseKeeps(plan, s, c);
      case RunClosed => ReadKeeps(plan, s, c);
      case SiblingsRead(ready) =>
        if ready { SynthesizeKeeps(plan, s, c); } else { EndKeeps(plan, s, c, false); }
  }
}
