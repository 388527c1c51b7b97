/** Opening and closing the branches of a parallel investigation over the run rows
    of the store (internal/branching/branching.go, internal/store/fanoutstore). */
module Branching {
  import opened Options
  import opened Text
  import opened Fanout

  datatype RunState = Live | Finalizing | Finished

  /** A run and the episode it carries: unique on kind and source. */
  datatype Row = Row(
    kind: string, source: string, incident: string, parent: string, key: string, life: string, run: RunState)

  datatype Outcome = Inserted | AlreadyThere | Conflict

  datatype Lead = Lead(episode: string, incident: string)

  const FANOUT_KIND := "fanout"
  const SIBLING_LIMIT := 32

  predicate Known(rows: seq<Row>, kind: string, source: string) {
    exists i :: 0 <= i < |rows| && rows[i].kind == kind && rows[i].source == source
  }

  /** A run of the incident is finalizing, and no other may be admitted. */
  predicate Busy(rows: seq<Row>, incident: string) {
    exists i :: 0 <= i < |rows| && rows[i].incident == incident && rows[i].run.Finalizing?
  }

  function QueueOutcome(rows: seq<Row>, row: Row): Outcome {
    if Busy(rows, row.incident) then Conflict
    else if Known(rows, row.kind, row.source) then AlreadyThere
    else Inserted
  }

  function Queued(rows: seq<Row>, row: Row): seq<Row> {
    if QueueOutcome(rows, row).Inserted? then rows + [row] else rows
  }

  /** Branch.Terminal: stopped, by any road. */
  predicate Terminal(life: string) {
    life in {"completed", "failed", "refused", "cancelled", "superseded", "blocked"}
  }

  function Phased(rows: seq<Row>, i: nat, life: string): seq<Row>
    requires i < |rows|
  {
    rows[i := rows[i].(life := life)]
  }

  /** FinishAgentRun: only a finalizing run can be finished. */
  function RunFinished(rows: seq<Row>, i: nat): seq<Row>
    requires i < |rows|
  {
    if rows[i].run.Finalizing? then rows[i := rows[i].(run := Finished)] else rows
  }

  predicate BranchOf(row: Row, lead: string) {
    row.parent == lead && Marked(row.key)
  }

  function Branches(rows: seq<Row>, lead: string): seq<Row> {
    if rows == [] then []
    else
      var last := rows[|rows| - 1];
      Branches(rows[..|rows| - 1], lead) + if BranchOf(last, lead) then [last] else []
  }

  /** ListForLead: oldest first, at most the limit. */
  function Listed(rows: seq<Row>, lead: string, limit: nat): seq<Row> {
    if Blank(lead) then []
    else
      var all := Branches(rows, lead);
      if |all| <= limit then all else all[..limit]
  }

  function GoalId(row: Row): string {
    GoalOf(row.key).GetOr("")
  }

  /** What the loop of SynthesizeIfReady records for each goal: has it stopped. */
  function States(siblings: seq<Row>): map<string, bool> {
    if siblings == [] then map[]
    else
      var last, before := siblings[|siblings| - 1], States(siblings[..|siblings| - 1]);
      if GoalId(last) == "" then before else before[GoalId(last) := Terminal(last.life)]
  }

  function GoalIds(siblings: seq<Row>): seq<string> {
    if siblings == [] then []
    else
      var last := siblings[|siblings| - 1];
      GoalIds(siblings[..|siblings| - 1]) + if GoalId(last) == "" then [] else [GoalId(last)]
  }

  /** fanout.SynthesisReady */
  predicate SynthesisReady(states: map<string, bool>, goals: seq<string>) {
    goals != [] && forall i :: 0 <= i < |goals| ==> goals[i] in states && states[goals[i]]
  }

  predicate Ready(siblings: seq<Row>) {
    SynthesisReady(States(siblings), GoalIds(siblings))
  }

  function BranchRow(lead: Lead, goal: string): Row {
    Row(FANOUT_KIND, BranchSourceId(lead.episode, goal), lead.incident, lead.episode,
        BranchConversationKey("incident:" + lead.incident, goal), "working", Live)
  }

  /** The synthesis runs under the lead's own conversation, as no branch of it. */
  function SynthesisRow(lead: Lead): Row {
    Row(FANOUT_KIND, SynthesisSourceId(lead.episode), lead.incident, "", "incident:" + lead.incident, "working", Live)
  }

  /** openBranches: one admission per goal, stopping at the first conflict. */
  function OpenedRows(rows: seq<Row>, lead: Lead, goals: seq<string>): seq<Row> {
    if goals == [] then rows
    else
      var before := OpenedRows(rows, lead, goals[..|goals| - 1]);
      if !AllAdmitted(rows, lead, goals[..|goals| - 1]) then before
      else Queued(before, BranchRow(lead, goals[|goals| - 1]))
  }

  predicate AllAdmitted(rows: seq<Row>, lead: Lead, goals: seq<string>) {
    goals == []
    || (AllAdmitted(rows, lead, goals[..|goals| - 1])
        && !QueueOutcome(OpenedRows(rows, lead, goals[..|goals| - 1]), BranchRow(lead, goals[|goals| - 1])).Conflict?)
  }

  /** SynthesizeIfReady, run without interruption. */
  function Synthesized(rows: seq<Row>, lead: Lead): seq<Row> {
    if Ready(Listed(rows, lead.episode, SIBLING_LIMIT)) then Queued(rows, SynthesisRow(lead)) else rows
  }

  predicate SynthesisFails(rows: seq<Row>, lead: Lead) {
    Ready(Listed(rows, lead.episode, SIBLING_LIMIT)) && QueueOutcome(rows, SynthesisRow(lead)).Conflict?
  }

  function StoppedAs(completed: bool): string {
    if completed then "completed" else "blocked"
  }

  /** The run rows behind the store's transactions, each method one of them. */
  class Store {
    var rows: seq<Row>

    constructor ()
      ensures rows == []
    {
      rows := [];
    }

    method QueueAgentRun(row: Row) returns (outcome: Outcome)
      modifies this
      ensures outcome == QueueOutcome(old(rows), row)
      ensures rows == Queued(old(rows), row)
    {
      if Busy(rows, row.incident) { return Conflict; }
      if Known(rows, row.kind, row.source) { return AlreadyThere; }
      rows := rows + [row];
      return Inserted;
    }

    method SetWorkEpisodePhase(i: nat, life: string)
      requires i < |rows|
      modifies this
      ensures rows == Phased(old(rows), i, life)
    {
      rows := rows[i := rows[i].(life := life)];
    }

    method FinishAgentRun(i: nat) returns (ok: bool)
      requires i < |rows|
      modifies this
      ensures ok == old(rows)[i].run.Finalizing?
      ensures rows == RunFinished(old(rows), i)
    {
      if !rows[i].run.Finalizing? { return false; }
      rows := rows[i := rows[i].(run := Finished)];
      return true;
    }

    method ListForLead(lead: string, limit: nat) returns (siblings: seq<Row>)
      ensures siblings == Listed(rows, lead, limit)
    {
      siblings := [];
      if Blank(lead) { return; }
      for i := 0 to |rows|
        invariant siblings == Branches(rows[..i], lead)
      {
        assert rows[..i + 1][..i] == rows[..i];
        if BranchOf(rows[i], lead) { siblings := siblings + [rows[i]]; }
      }
      assert rows[..|rows|] == rows;
      if |siblings| > limit { siblings := siblings[..limit]; }
    }
  }

  class Runner {
    const store: Store

    constructor (store: Store)
      ensures this.store == store
    {
      this.store := store;
    }

    /** openBranches */
    method OpenBranches(lead: Lead, goals: seq<string>) returns (ok: bool)
      modifies store
      ensures ok == AllAdmitted(old(store.rows), lead, goals)
      ensures store.rows == OpenedRows(old(store.rows), lead, goals)
    {
      hide QueueOutcome, Queued;
      for i := 0 to |goals|
        invariant AllAdmitted(old(store.rows), lead, goals[..i])
        invariant store.rows == OpenedRows(old(store.rows), lead, goals[..i])
      {
        assert goals[..i + 1][..i] == goals[..i];
        var outcome := store.QueueAgentRun(BranchRow(lead, goals[i]));
        if outcome.Conflict? {
          ConflictQueuesNothing(OpenedRows(old(store.rows), lead, goals[..i]), BranchRow(lead, goals[i]));
          StoppedOpening(old(store.rows), lead, goals, i);
          return false;
        }
      }
      assert goals[..|goals|] == goals;
      return true;
    }

    /** SynthesizeIfReady */
    method SynthesizeIfReady(lead: Lead) returns (ok: bool)
      modifies store
      ensures ok == !SynthesisFails(old(store.rows), lead)
      ensures store.rows == Synthesized(old(store.rows), lead)
    {
      hide Listed, Queued, QueueOutcome, GoalId, Terminal;
      var siblings := store.ListForLead(lead.episode, SIBLING_LIMIT);
      var states: map<string, bool>, goals: seq<string> := map[], [];
      for i := 0 to |siblings|
        invariant states == States(siblings[..i]) && goals == GoalIds(siblings[..i])
      {
        assert siblings[..i + 1][..i] == siblings[..i];
        var goal := GoalId(siblings[i]);
        if goal != "" {
          goals := goals + [goal];
          states := states[goal := Terminal(siblings[i].life)];
        }
      }
      assert siblings[..|siblings|] == siblings;
      if !SynthesisReady(states, goals) { return true; }
      var outcome := store.QueueAgentRun(SynthesisRow(lead));
      ok := !outcome.Conflict?;
    }

    /** Finish: the phase, then the run, then the siblings. */
    method Finish(i: nat, completed: bool) returns (ok: bool)
      requires i < |store.rows|
      modifies store
      ensures var rows := RunFinished(Phased(old(store.rows), i, if completed then "completed" else "blocked"), i);
              var lead := Lead(old(store.rows)[i].parent, old(store.rows)[i].incident);
              if !old(store.rows)[i].run.Finalizing? then !ok && store.rows == rows
              else ok == !SynthesisFails(rows, lead) && store.rows == Synthesized(rows, lead)
    {
      hide Synthesized, SynthesisFails;
      var lead := Lead(store.rows[i].parent, store.rows[i].incident);
      store.SetWorkEpisodePhase(i, StoppedAs(completed));
      ok := store.FinishAgentRun(i);
      if !ok { return; }
      ok := SynthesizeIfReady(lead);
    }
  }

  lemma {:induction false} StoppedOpening(rows: seq<Row>, lead: Lead, goals: seq<string>, i: nat)
    requires i < |goals| && AllAdmitted(rows, lead, goals[..i])
    requires QueueOutcome(OpenedRows(rows, lead, goals[..i]), BranchRow(lead, goals[i])).Conflict?
    ensures !AllAdmitted(rows, lead, goals)
    ensures OpenedRows(rows, lead, goals) == OpenedRows(rows, lead, goals[..i])
    decreases |goals|
  {
    hide QueueOutcome, BranchRow;
    if i == |goals| - 1 {
      hide Queued;
      ConflictQueuesNothing(OpenedRows(rows, lead, goals[..i]), BranchRow(lead, goals[i]));
    } else {
      var front := goals[..|goals| - 1];
      assert front[..i] == goals[..i];
      StoppedOpening(rows, lead, front, i);
    }
  }

  lemma ConflictQueuesNothing(rows: seq<Row>, row: Row)
    requires QueueOutcome(rows, row).Conflict?
    ensures Queued(rows, row) == rows
  {
  }
}
