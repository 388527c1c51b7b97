/** Which states of a fan-out can still get their synthesis: those in which a call of
    Finish in flight owes it, whether or not branches wait for their siblings' rows. */
module BranchRecovery {
  import opened Options
  import opened Text
  import opened Fanout
  import opened Branching
  import opened BranchProtocol
  import opened BranchSafety
  import opened BranchRuns

  // ---- What holds even when branches finish before their fan-out is all there ----

  ghost predicate CallGround(plan: Plan, rows: seq<Row>, c: Call) {
    && c.row < |rows| && Marked(rows[c.row].key) && rows[c.row].parent in plan && !rows[c.row].run.Live?
    && (!c.stage.Called? ==> Terminal(rows[c.row].life))
    && (c.stage.RunClosed? || c.stage.SiblingsRead? ==> rows[c.row].run.Finished?)
  }

  ghost predicate Ground(plan: Plan, s: System) {
    && Shaped(plan, s.rows) && UniqueSources(s.rows) && FinishedStopped(s.rows)
    && forall c :: c in s.calls ==> CallGround(plan, s.rows, c)
  }

  lemma EmptyGround(plan: Plan)
    ensures Ground(plan, BranchProtocol.EMPTY)
  {
  }

  lemma CalledGround(plan: Plan, s: System, c: nat)
    requires Ground(plan, s) && c < |s.calls|
    ensures CallGround(plan, s.rows, s.calls[c])
  {
    hide Shaped, UniqueSources, FinishedStopped, Marked, Terminal;
    assert s.calls[c] in s.calls;
  }

  lemma GroundIncident(plan: Plan, s: System, i: nat)
    requires Ground(plan, s) && i < |s.rows| && Marked(s.rows[i].key)
    ensures s.rows[i].parent in plan && s.rows[i].incident == plan[s.rows[i].parent].incident
    ensures s.rows[i].run.Finished? ==> Terminal(s.rows[i].life)
  {
    hide Marked, GoalId, UniqueSources, Terminal, CallGround;
  }

  lemma GroundAppend(plan: Plan, s: System, row: Row)
    requires Ground(plan, s) && !Known(s.rows, row.kind, row.source) && row.run.Live?
    requires if Marked(row.key) then BranchShape(plan, row) else OtherShape(plan, row)
    ensures Ground(plan, s.(rows := s.rows + [row]))
  {
    Appended(plan, s.rows, row);
    hide Shaped, UniqueSources, FinishedStopped, Marked, Terminal, Known, OtherShape, BranchShape;
  }

  lemma GroundForward(plan: Plan, s: System, rows: seq<Row>)
    requires Ground(plan, s) && Forward(s.rows, rows)
    ensures Ground(plan, s.(rows := rows))
  {
    MovedOn(plan, s.rows, rows);
    hide Shaped, UniqueSources, FinishedStopped, Marked, Terminal;
    forall c | c in s.calls ensures CallGround(plan, rows, c) {
      assert CallGround(plan, s.rows, c);
    }
  }

  lemma GroundMoves(plan: Plan, s: System, c: nat, stage: Stage)
    requires Ground(plan, s) && c < |s.calls| && CallGround(plan, s.rows, s.calls[c].(stage := stage))
    ensures Ground(plan, Moved(s, c, s.rows, stage))
  {
    hide Shaped, UniqueSources, FinishedStopped, CallGround;
  }

  lemma GroundEnds(plan: Plan, s: System, c: nat, failed: bool)
    requires Ground(plan, s) && c < |s.calls| && s.calls[c].row < |s.rows|
    ensures Ground(plan, Ended(s, c, s.rows, failed))
  {
    hide Shaped, UniqueSources, FinishedStopped, CallGround, Without, AllFinished;
    WithoutMembers(s.calls, c);
  }

  /** Every branch row stays where it is or goes on. */
  lemma OneGoesOn(plan: Plan, s: System, at: nat, row: Row)
    requires Ground(plan, s) && at < |s.rows|
    requires row == s.rows[at].(life := row.life, run := row.run)
    requires Marked(row.key) ==>
               && (Terminal(s.rows[at].life) ==> Terminal(row.life)) && (!s.rows[at].run.Live? ==> !row.run.Live?)
               && (s.rows[at].run.Finished? ==> row.run.Finished?) && (row.run.Finished? ==> Terminal(row.life))
    ensures Forward(s.rows, s.rows[at := row])
  {
    hide Marked, Terminal, Shaped, UniqueSources, CallGround;
  }

  lemma GroundSteps(plan: Plan, s: System, c: nat)
    requires ValidPlan(plan) && Ground(plan, s) && c < |s.calls| && s.calls[c].row < |s.rows|
    ensures Ground(plan, Stepped(s, c))
  {
    hide Ground, ValidPlan, Marked, Terminal, Known, Busy, Ready, Listed, SynthesisSourceId, Forward, OtherShape;
    CalledGround(plan, s, c);
    var call := s.calls[c];
    var row := s.rows[call.row];
    GroundIncident(plan, s, call.row);
    if call.stage.Called? {
      StoppedIsTerminal(call.completed);
      var next := row.(life := StoppedAs(call.completed));
      OneGoesOn(plan, s, call.row, next);
      GroundForward(plan, s, s.rows[call.row := next]);
      GroundMoves(plan, s.(rows := s.rows[call.row := next]), c, PhaseWritten);
    } else if call.stage.PhaseWritten? && row.run.Finalizing? {
      var next := row.(run := Finished);
      OneGoesOn(plan, s, call.row, next);
      GroundForward(plan, s, s.rows[call.row := next]);
      GroundMoves(plan, s.(rows := s.rows[call.row := next]), c, RunClosed);
    } else if call.stage.RunClosed? {
      GroundMoves(plan, s, c, SiblingsRead(Ready(Listed(s.rows, row.parent, SIBLING_LIMIT))));
    } else if call.stage.SiblingsRead? && call.stage.ready {
      var synthesis := SynthesisRow(Lead(row.parent, row.incident));
      SynthesisShape(plan, row.parent);
      if QueueOutcome(s.rows, synthesis).Inserted? {
        GroundAppend(plan, s, synthesis);
        GroundEnds(plan, s.(rows := s.rows + [synthesis]), c, false);
        SameEnd(s, c, synthesis);
      } else {
        GroundEnds(plan, s, c, QueueOutcome(s.rows, synthesis).Conflict?);
      }
    } else {
      GroundEnds(plan, s, c, call.stage.PhaseWritten?);
    }
  }

  lemma SameEnd(s: System, c: nat, row: Row)
    requires c < |s.calls| && s.calls[c].row < |s.rows|
    ensures Ended(s.(rows := s.rows + [row]), c, s.rows + [row], false) == Ended(s, c, s.rows + [row], false)
  {
    hide AllFinished, Without;
  }

  lemma StoppedIsTerminal(completed: bool)
    ensures Terminal(StoppedAs(completed))
  {
  }

  lemma GroundStays(plan: Plan, s: System, e: Event)
    requires ValidPlan(plan) && Ground(plan, s) && Enabled(plan, s, e, true)
    ensures Ground(plan, Next(plan, s, e, true))
  {
    hide ValidPlan, Marked, Terminal, Known, Busy, Ready, Listed, SynthesisSourceId, BranchSourceId, GoalId,
         BranchConversationKey, Stepped, Ended, Forward, Opened, OtherShape, BranchShape, Shaped, UniqueSources,
         FinishedStopped;
    match e
    case OpenRow(other, goal) =>
      var row := BranchRow(Lead(other, plan[other].incident), goal);
      BranchRowShape(plan, other, goal);
      if QueueOutcome(s.rows, row).Inserted? { GroundAppend(plan, s, row); }
    case OtherRun(row) =>
      if QueueOutcome(s.rows, row).Inserted? {
        OtherIsShaped(plan, row);
        GroundAppend(plan, s, row);
      }
    case OtherMoves(at, life, run) =>
      OneGoesOn(plan, s, at, s.rows[at].(life := life, run := run));
      GroundForward(plan, s, s.rows[at := s.rows[at].(life := life, run := run)]);
    case ResultStaged(at) =>
      OneGoesOn(plan, s, at, s.rows[at].(run := Finalizing));
      GroundForward(plan, s, s.rows[at := s.rows[at].(run := Finalizing)]);
    case FinishCalled(at, completed) =>
    case StoreStep(c) => GroundSteps(plan, s, c);
    case CutOff(c) => GroundEnds(plan, s, c, true);
  }

  lemma OtherIsShaped(plan: Plan, row: Row)
    requires row.kind != FANOUT_KIND
    ensures OtherShape(plan, row)
  {
  }

  /** Whatever a gated run may do, an ungated one may. */
  lemma UngatedStep(plan: Plan, s: System, e: Event, eager: bool)
    requires Enabled(plan, s, e, eager)
    ensures Enabled(plan, s, e, true) && Next(plan, s, e, eager) == Next(plan, s, e, true)
  {
    hide Marked, Opened, Queued, Stepped, Ended, BranchRow;
  }

  lemma {:induction false} GroundRuns(plan: Plan, s: System, events: seq<Event>, eager: bool)
    requires ValidPlan(plan) && Ground(plan, s)
    ensures Exec(plan, s, events, eager).Some? ==> Ground(plan, Exec(plan, s, events, eager).value)
    decreases |events|
  {
    hide Ground, ValidPlan, Enabled, Next;
    if events != [] {
      var front, e := events[..|events| - 1], events[|events| - 1];
      GroundRuns(plan, s, front, eager);
      var t := Exec(plan, s, front, eager);
      if t.Some? && Enabled(plan, t.value, e, eager) {
        UngatedStep(plan, t.value, e, eager);
        GroundStays(plan, t.value, e);
      }
    }
  }

  // ---- Stuck: no call owes the reading ----

  /** A lead whose branches have all finished, without a synthesis. */
  ghost predicate Waiting(plan: Plan, s: System, id: string) {
    && id in plan && Opened(plan, s.rows, id) && AllFinished(s.rows, id) && !HasSynthesis(s.rows, id)
  }

  /** And no call in flight can still queue it. */
  ghost predicate Stuck(plan: Plan, s: System, id: string) {
    && Waiting(plan, s, id)
    && forall c :: c in s.calls && c.row < |s.rows| && s.rows[c.row].parent == id ==> !Owing(c.stage)
  }

  lemma StuckAppend(plan: Plan, s: System, id: string, row: Row)
    requires Ground(plan, s) && Stuck(plan, s, id)
    requires !BranchOf(row, id) && !(row.kind == FANOUT_KIND && row.source == SynthesisSourceId(id))
    ensures Stuck(plan, s.(rows := s.rows + [row]), id)
  {
    hide Marked, SynthesisSourceId, Shaped, UniqueSources, FinishedStopped, Terminal, Opened, Known;
    OpenedGrows(plan, s.rows, row, id);
    KnownAppend(s.rows, row);
    var rows := s.rows + [row];
    forall i | 0 <= i < |rows| && BranchOf(rows[i], id) ensures rows[i].run.Finished? {
      if i < |s.rows| {
        assert rows[i] == s.rows[i];
      }
    }
    forall c | c in s.calls && c.row < |rows| && rows[c.row].parent == id ensures !Owing(c.stage) {
      assert CallGround(plan, s.rows, c);
    }
  }

  lemma StuckForward(plan: Plan, s: System, id: string, rows: seq<Row>)
    requires Ground(plan, s) && Stuck(plan, s, id) && Forward(s.rows, rows)
    ensures Stuck(plan, s.(rows := rows), id)
  {
    hide Terminal, Shaped, UniqueSources, FinishedStopped, Opened, Known, CallGround, Marked;
    MovedOn(plan, s.rows, rows);
    forall i | 0 <= i < |rows| && BranchOf(rows[i], id) ensures rows[i].run.Finished? {
      assert BranchOf(s.rows[i], id);
    }
  }

  lemma StuckEnds(plan: Plan, s: System, id: string, c: nat, failed: bool)
    requires Stuck(plan, s, id) && c < |s.calls| && s.calls[c].row < |s.rows|
    ensures Stuck(plan, Ended(s, c, s.rows, failed), id)
  {
    hide Opened, AllFinished, HasSynthesis, Without;
    WithoutMembers(s.calls, c);
  }

  lemma StuckMoves(plan: Plan, s: System, id: string, c: nat, stage: Stage)
    requires Stuck(plan, s, id) && c < |s.calls| && s.calls[c].row < |s.rows|
    requires s.rows[s.calls[c].row].parent == id ==> !Owing(stage)
    ensures Stuck(plan, Moved(s, c, s.rows, stage), id)
  {
    hide Opened, AllFinished, HasSynthesis;
  }

  /** A stuck lead stays stuck through any store step of any call. */
  lemma StuckSteps(plan: Plan, s: System, id: string, c: nat)
    requires ValidPlan(plan) && Ground(plan, s) && Stuck(plan, s, id) && c < |s.calls| && s.calls[c].row < |s.rows|
    ensures Stuck(plan, Stepped(s, c), id)
  {
    hide Ground, ValidPlan, Marked, Terminal, Opened, Known, Busy, Ready, Listed, HasSynthesis, SynthesisSourceId, Forward;
    CalledGround(plan, s, c);
    var call := s.calls[c];
    var row := s.rows[call.row];
    GroundIncident(plan, s, call.row);
    assert call in s.calls;
    if call.stage.Called? {
      StoppedIsTerminal(call.completed);
      var next := row.(life := StoppedAs(call.completed));
      OneGoesOn(plan, s, call.row, next);
      StuckForward(plan, s, id, s.rows[call.row := next]);
      StuckMoves(plan, s.(rows := s.rows[call.row := next]), id, c, PhaseWritten);
    } else if call.stage.PhaseWritten? && row.run.Finalizing? {
      var next := row.(run := Finished);
      OneGoesOn(plan, s, call.row, next);
      assert BranchOf(row, row.parent);
      StuckForward(plan, s, id, s.rows[call.row := next]);
      StuckMoves(plan, s.(rows := s.rows[call.row := next]), id, c, RunClosed);
    } else if call.stage.RunClosed? {
      StuckMoves(plan, s, id, c, SiblingsRead(Ready(Listed(s.rows, row.parent, SIBLING_LIMIT))));
    } else if call.stage.SiblingsRead? && call.stage.ready {
      var synthesis := SynthesisRow(Lead(row.parent, row.incident));
      SynthesisShape(plan, row.parent);
      if QueueOutcome(s.rows, synthesis).Inserted? {
        StuckAppend(plan, s, id, synthesis);
        StuckEnds(plan, s.(rows := s.rows + [synthesis]), id, c, false);
        SameEnd(s, c, synthesis);
      } else {
        StuckEnds(plan, s, id, c, QueueOutcome(s.rows, synthesis).Conflict?);
      }
    } else {
      StuckEnds(plan, s, id, c, call.stage.PhaseWritten?);
    }
  }

  lemma StuckStays(plan: Plan, s: System, id: string, e: Event)
    requires ValidPlan(plan) && Ground(plan, s) && Stuck(plan, s, id) && Enabled(plan, s, e, true)
    ensures Stuck(plan, Next(plan, s, e, true), id)
  {
    hide Ground, ValidPlan, Marked, Terminal, Known, Busy, Ready, Listed, SynthesisSourceId, BranchSourceId, GoalId,
         BranchConversationKey, Stepped, Ended, Forward;
    match e
    case OpenRow(other, goal) =>
      var row := BranchRow(Lead(other, plan[other].incident), goal);
      BranchRowShape(plan, other, goal);
      if QueueOutcome(s.rows, row).Inserted? {
        if other == id { ReopeningAddsNothing(plan, s, id, goal); } else { StuckAppend(plan, s, id, row); }
      }
    case OtherRun(row) =>
      if QueueOutcome(s.rows, row).Inserted? { StuckAppend(plan, s, id, row); }
    case OtherMoves(at, life, run) =>
      OneGoesOn(plan, s, at, s.rows[at].(life := life, run := run));
      StuckForward(plan, s, id, s.rows[at := s.rows[at].(life := life, run := run)]);
    case ResultStaged(at) =>
      GroundIncident(plan, s, at);
      OneGoesOn(plan, s, at, s.rows[at].(run := Finalizing));
      StuckForward(plan, s, id, s.rows[at := s.rows[at].(run := Finalizing)]);
    case FinishCalled(at, completed) =>
    case StoreStep(c) => StuckSteps(plan, s, id, c);
    case CutOff(c) => StuckEnds(plan, s, id, c, true);
  }

  /** Once stuck, no run of any events ever queues the synthesis. */
  lemma {:induction false} StuckForever(plan: Plan, s: System, id: string, events: seq<Event>)
    requires ValidPlan(plan) && Ground(plan, s) && Stuck(plan, s, id)
    ensures Exec(plan, s, events, true).Some? ==>
              Ground(plan, Exec(plan, s, events, true).value) && Stuck(plan, Exec(plan, s, events, true).value, id)
    decreases |events|
  {
    hide Ground, ValidPlan, Stuck, Enabled, Next;
    if events != [] {
      var front, e := events[..|events| - 1], events[|events| - 1];
      StuckForever(plan, s, id, front);
      var t := Exec(plan, s, front, true);
      if t.Some? && Enabled(plan, t.value, e, true) {
        GroundStays(plan, t.value, e);
        StuckStays(plan, t.value, id, e);
      }
    }
  }

  // ---- Not stuck: the incident can be cleared and the call can go on ----

  lemma {:induction false} ExecConcat(plan: Plan, s: System, a: seq<Event>, b: seq<Event>)
    requires Exec(plan, s, a, true).Some?
    ensures Exec(plan, s, a + b, true) == Exec(plan, Exec(plan, s, a, true).value, b, true)
    decreases |b|
  {
    hide Enabled, Next;
    if b == [] {
      assert a + b == a;
    } else {
      assert (a + b)[..|a + b| - 1] == a + b[..|b| - 1];
      ExecConcat(plan, s, a, b[..|b| - 1]);
    }
  }

  lemma ExecNext(plan: Plan, s: System, a: seq<Event>, t: System, e: Event)
    requires Exec(plan, s, a, true) == Some(t) && Enabled(plan, t, e, true)
    ensures Exec(plan, s, a + [e], true) == Some(Next(plan, t, e, true))
  {
    hide Enabled, Next;
    assert (a + [e])[..|a|] == a;
  }

  /** The same rows and calls, some runs finished, some calls more. */
  ghost predicate Cleared(s: System, t: System) {
    && SameNames(s.rows, t.rows) && |s.calls| <= |t.calls| && t.calls[..|s.calls|] == s.calls
    && forall j :: 0 <= j < |s.rows| ==> t.rows[j].run == s.rows[j].run || t.rows[j].run.Finished?
  }

  lemma ClearedTwice(s: System, t: System, u: System)
    requires Cleared(s, t) && Cleared(t, u)
    ensures Cleared(s, u)
  {
    assert forall j :: 0 <= j < |s.calls| ==> u.calls[..|t.calls|][j] == t.calls[j] == t.calls[..|s.calls|][j];
  }

  /** A finalizing run can always be brought to its end, a branch by calling Finish. */
  lemma ClearRow(plan: Plan, s: System, k: nat) returns (events: seq<Event>, t: System)
    requires k < |s.rows| && s.rows[k].run.Finalizing? && (Marked(s.rows[k].key) ==> s.rows[k].parent in plan)
    ensures Exec(plan, s, events, true) == Some(t) && Cleared(s, t) && t.rows[k].run.Finished?
  {
    hide Exec, Marked, Opened;
    assert Exec(plan, s, [], true) == Some(s) by { ExecEmpty(plan, s); }
    if !Marked(s.rows[k].key) {
      events := [] + [OtherMoves(k, s.rows[k].life, Finished)];
      ExecNext(plan, s, [], s, events[0]);
      t := Next(plan, s, events[0], true);
    } else {
      var m := |s.calls|;
      ExecNext(plan, s, [], s, FinishCalled(k, true));
      events := [] + [FinishCalled(k, true)];
      var a := Next(plan, s, FinishCalled(k, true), true);
      assert a.calls[m] == Call(k, true, Called);
      ExecNext(plan, s, events, a, StoreStep(m));
      events := events + [StoreStep(m)];
      var b := Next(plan, a, StoreStep(m), true);
      assert b.calls[m].stage == PhaseWritten && b.rows[k].run.Finalizing?;
      ExecNext(plan, s, events, b, StoreStep(m));
      events := events + [StoreStep(m)];
      t := Next(plan, b, StoreStep(m), true);
      assert t.calls[..m] == s.calls;
    }
  }

  lemma ExecEmpty(plan: Plan, s: System)
    ensures Exec(plan, s, [], true) == Some(s)
  {
  }

  lemma ClearIncident(plan: Plan, s: System, incident: string, k: nat) returns (events: seq<Event>, t: System)
    requires ValidPlan(plan) && Ground(plan, s) && k <= |s.rows|
    requires forall j :: 0 <= j < k && s.rows[j].incident == incident ==> !s.rows[j].run.Finalizing?
    ensures Exec(plan, s, events, true) == Some(t) && Cleared(s, t) && !Busy(t.rows, incident)
    decreases |s.rows| - k
  {
    hide Exec, Marked, Ground, ValidPlan;
    if k == |s.rows| {
      events, t := [], s;
      ExecEmpty(plan, s);
    } else if s.rows[k].incident != incident || !s.rows[k].run.Finalizing? {
      events, t := ClearIncident(plan, s, incident, k + 1);
    } else {
      if Marked(s.rows[k].key) { GroundIncident(plan, s, k); }
      var first, u := ClearRow(plan, s, k);
      GroundRuns(plan, s, first, true);
      var rest;
      rest, t := ClearIncident(plan, u, incident, k + 1);
      events := first + rest;
      ExecConcat(plan, s, first, rest);
      ClearedTwice(s, u, t);
    }
  }

  lemma WaitingCleared(plan: Plan, s: System, t: System, id: string)
    requires Waiting(plan, s, id) && Cleared(s, t)
    ensures Waiting(plan, t, id)
  {
    NamesKept(plan, s.rows, t.rows);
    hide Known, Marked, Shaped, UniqueSources;
    forall i | 0 <= i < |t.rows| && BranchOf(t.rows[i], id) ensures t.rows[i].run.Finished? {
      assert BranchOf(s.rows[i], id);
    }
  }

  /** With the incident free, a call that owes the synthesis queues it. */
  lemma OwedIsPaid(plan: Plan, s: System, id: string, c: nat) returns (events: seq<Event>)
    requires ValidPlan(plan) && Ground(plan, s) && Waiting(plan, s, id) && c < |s.calls| && OwedBy(s, id, s.calls[c])
    requires !Busy(s.rows, plan[id].incident)
    ensures Exec(plan, s, events, true).Some? && HasSynthesis(Exec(plan, s, events, true).value.rows, id)
  {
    hide Exec, Ground, ValidPlan, Marked, Opened, AllFinished, Known, Ready, Listed, Busy, SynthesisSourceId;
    assert Exec(plan, s, [], true) == Some(s) by { ExecEmpty(plan, s); }
    events := [];
    var t := s;
    CalledGround(plan, s, c);
    GroundIncident(plan, s, s.calls[c].row);
    if s.calls[c].stage.RunClosed? {
      ReadyToQueue(plan, s, id);
      ExecNext(plan, s, [], s, StoreStep(c));
      events := [] + [StoreStep(c)];
      t := Next(plan, s, StoreStep(c), true);
    }
    assert t.calls[c].stage == SiblingsRead(true) && t.rows == s.rows;
    ExecNext(plan, s, events, t, StoreStep(c));
    events := events + [StoreStep(c)];
    Filed(s.rows, SynthesisRow(Lead(id, plan[id].incident)));
  }

  lemma ReadyToQueue(plan: Plan, s: System, id: string)
    requires ValidPlan(plan) && Ground(plan, s) && Waiting(plan, s, id)
    ensures Ready(Listed(s.rows, id, SIBLING_LIMIT))
  {
    hide Marked, Terminal, Opened, AllStopped, AllFinished, HasSynthesis, Ready, Listed, Shaped, UniqueSources, ValidPlan,
         FinishedStopped, CallGround;
    FinishedIsStopped(s.rows, id);
    ReadyMeansAllStopped(plan, s.rows, id);
  }

  lemma Filed(rows: seq<Row>, row: Row)
    requires !Busy(rows, row.incident) && !Known(rows, row.kind, row.source)
    ensures Known(Queued(rows, row), row.kind, row.source)
  {
    hide Busy;
    assert Queued(rows, row)[|rows|] == row;
  }

  /** Some run of events from here queues the synthesis, Finish being called at any
      time for any branch with a result. */
  ghost predicate StillPossible(plan: Plan, s: System, id: string) {
    exists events :: Exec(plan, s, events, true).Some? && HasSynthesis(Exec(plan, s, events, true).value.rows, id)
  }

  /** With every branch row there and every branch finished, some run of events still
      queues the synthesis if and only if a call in flight owes it. */
  lemma SynthesisStillPossible(plan: Plan, s: System, id: string)
    requires ValidPlan(plan) && Ground(plan, s) && Waiting(plan, s, id)
    ensures StillPossible(plan, s, id) <==> exists c :: 0 <= c < |s.calls| && OwedBy(s, id, s.calls[c])
  {
    hide Exec, Ground, ValidPlan, Waiting, HasSynthesis, Marked;
    if events :| Exec(plan, s, events, true).Some? && HasSynthesis(Exec(plan, s, events, true).value.rows, id) {
      if !exists c :: 0 <= c < |s.calls| && OwedBy(s, id, s.calls[c]) {
        assert forall c :: c in s.calls && c.row < |s.rows| && s.rows[c.row].parent == id ==> !Owing(c.stage);
        StuckForever(plan, s, id, events);
        NothingQueued(plan, Exec(plan, s, events, true).value, id);
      }
    }
    if c :| 0 <= c < |s.calls| && OwedBy(s, id, s.calls[c]) {
      var incident := plan[id].incident by { LeadOf(plan, s, id); }
      var first, t := ClearIncident(plan, s, incident, 0);
      GroundRuns(plan, s, first, true);
      WaitingCleared(plan, s, t, id);
      assert t.calls[c] == t.calls[..|s.calls|][c] == s.calls[c];
      var rest := OwedIsPaid(plan, t, id, c);
      ExecConcat(plan, s, first, rest);
      assert Exec(plan, s, first + rest, true).Some?;
    }
  }

  lemma NothingQueued(plan: Plan, s: System, id: string)
    requires Waiting(plan, s, id)
    ensures !HasSynthesis(s.rows, id)
  {
  }

  lemma LeadOf(plan: Plan, s: System, id: string)
    requires Waiting(plan, s, id)
    ensures id in plan
  {
  }

  /** The same of every state a run from the empty store reaches, whether or not its
      branches waited for their fan-out. */
  lemma ReachedStillPossible(plan: Plan, run: seq<Event>, s: System, id: string, eager: bool)
    requires ValidPlan(plan) && Exec(plan, BranchProtocol.EMPTY, run, eager) == Some(s) && Waiting(plan, s, id)
    ensures StillPossible(plan, s, id) <==> exists c :: 0 <= c < |s.calls| && OwedBy(s, id, s.calls[c])
  {
    hide Exec, Ground, ValidPlan, Waiting, StillPossible, OwedBy;
    EmptyGround(plan);
    GroundRuns(plan, BranchProtocol.EMPTY, run, eager);
    SynthesisStillPossible(plan, s, id);
  }
}
