/** Putting back the accepted records a correction round left out
    (internal/decision/partial_round.go). */
module PartialRound {
  import opened Options
  import opened Text
  import opened Investigation
  import opened Fold
  import opened FoldSpec
  import opened Carry

  /** The operations to splice into the stream, and the same rows as fields. */
  datatype CarriedRecords = CarriedRecords(
    operations: seq<Operation>, evidence: seq<Evidence>, coverage: seq<Coverage>, findings: seq<Finding>)

  const NOTHING := CarriedRecords([], [], [], [])

  /** What restoration keeps while it works: the identifiers taken, the room left
      under the hundred-operation bound, and the rows put back so far. */
  datatype Restoring = Restoring(used: set<string>, room: int, records: CarriedRecords)

  function CoverageIdentity(layer: string): string {
    Lower(Trim(layer))
  }

  function SlugChar(c: char): char {
    if 'a' <= c <= 'z' || '0' <= c <= '9' then c else if 'A' <= c <= 'Z' then LowerChar(c) else '-'
  }

  function Slug(subject: string): string {
    var tight := Trim(subject);
    seq(|tight|, i requires 0 <= i < |tight| => SlugChar(tight[i]))
  }

  /** A slug is ASCII without white space, so its first forty bytes are its first
      forty characters. */
  function CarriedOperationId(prefix: string, subject: string, index: nat): string {
    var slug := Slug(subject);
    prefix + (if |slug| <= 40 then slug else slug[..40]) + "-" + Itoa(index + 1)
  }

  /** Two rows restored under made-up identifiers never share one. */
  lemma CarriedIdsDiffer(prefix: string, a: string, i: nat, b: string, j: nat)
    requires CarriedOperationId(prefix, a, i) == CarriedOperationId(prefix, b, j)
    ensures i == j
  {
    hide Slug, Itoa;
    var s, t := Slug(a), Slug(b);
    SuffixNumeral(prefix + (if |s| <= 40 then s else s[..40]), prefix + (if |t| <= 40 then t else t[..40]),
                  i + 1, j + 1);
  }

  function UsedIds(ops: seq<Operation>): set<string> {
    set i | 0 <= i < |ops| :: ops[i].id
  }

  function EvidenceNames(op: Operation): set<string> {
    if op.body.RecordEvidence? then
      {op.id} + if op.body.evidence.id != "" then {op.body.evidence.id} else {}
    else {}
  }

  function Layers(coverage: seq<Coverage>): set<string> {
    set i | 0 <= i < |coverage| :: CoverageIdentity(coverage[i].layer)
  }

  function LayerNames(op: Operation): set<string> {
    match op.body
    case RecordCoverage(c) => {CoverageIdentity(c.layer)}
    case CompleteEpisode(c) => Layers(c.coverage)
    case _ => {}
  }

  function FindingNames(op: Operation): seq<Finding> {
    if op.body.RecordFinding? then
      var f := op.body.finding;
      [f.(id := op.id, key := if f.key == "" then FindingKey(op.id) else f.key)]
    else []
  }

  function SentEvidence(ops: seq<Operation>): set<string> {
    set i, name | 0 <= i < |ops| && name in EvidenceNames(ops[i]) :: name
  }

  function SentCoverage(ops: seq<Operation>): set<string> {
    set i, name | 0 <= i < |ops| && name in LayerNames(ops[i]) :: name
  }

  function SentFindings(ops: seq<Operation>): seq<Finding> {
    Payloads(ops, FindingNames)
  }

  predicate Fits(s: Restoring, op: Operation) {
    s.room > 0 && op.id !in s.used && Valid(op)
  }

  function Taken(s: Restoring, op: Operation): Restoring {
    s.(used := s.used + {op.id}, room := s.room - 1,
       records := s.records.(operations := s.records.operations + [op]))
  }

  /** The row an operation carries, filed beside the operation. */
  function Filed(r: CarriedRecords, body: Body): CarriedRecords {
    match body
    case RecordEvidence(e) => r.(evidence := r.evidence + [e])
    case RecordCoverage(c) => r.(coverage := r.coverage + [c])
    case RecordFinding(f) => r.(findings := r.findings + [f])
    case _ => r
  }

  /** A row is dropped, never refused, when its operation does not fit. */
  function Put(s: Restoring, op: Operation): Restoring {
    if !Fits(s, op) then s
    else
      var t := Taken(s, op);
      t.(records := Filed(t.records, op.body))
  }

  function EvidenceOp(row: Evidence): Operation {
    Operation(row.id, RecordEvidence(row))
  }

  function RestoreEvidence(s: Restoring, row: Evidence, sent: set<string>): Restoring {
    if row.id == "" || row.id in sent then s else Put(s, EvidenceOp(row))
  }

  function CoverageOp(row: Coverage, index: nat): Operation {
    Operation(CarriedOperationId("carried-coverage-", row.layer, index), RecordCoverage(row))
  }

  function RestoreCoverage(s: Restoring, row: Coverage, index: nat, sent: set<string>): Restoring {
    if CoverageIdentity(row.layer) in sent then s else Put(s, CoverageOp(row, index))
  }

  /** The row's own identifier, or its key when the context envelope dropped it. */
  function FindingId(row: Finding): string {
    if row.id != "" then row.id else if row.key != "" then row.key else FindingKey(row.id)
  }

  function RestoredFindingId(row: Finding, index: nat, used: set<string>): string {
    var id := FindingId(row);
    if id == "" || id in used || ByteLen(id) > MAX_ID_BYTES
    then CarriedOperationId("carried-finding-", row.what, index) else id
  }

  /** Validate writes the key through the pointer both lists share. */
  function FindingOp(id: string, row: Finding): Operation {
    Operation(id, RecordFinding(row.(key := FindingKey(id))))
  }

  function RestoreFinding(s: Restoring, row: Finding, index: nat, sent: seq<Finding>): Restoring {
    if Answered(row, sent) then s else Put(s, FindingOp(RestoredFindingId(row, index, s.used), row))
  }

  function AllEvidence(s: Restoring, rows: seq<Evidence>, sent: set<string>): Restoring {
    if rows == [] then s
    else RestoreEvidence(AllEvidence(s, rows[..|rows| - 1], sent), rows[|rows| - 1], sent)
  }

  function AllCoverage(s: Restoring, rows: seq<Coverage>, sent: set<string>): Restoring {
    if rows == [] then s
    else RestoreCoverage(AllCoverage(s, rows[..|rows| - 1], sent), rows[|rows| - 1], |rows| - 1, sent)
  }

  function AllFindings(s: Restoring, rows: seq<Finding>, sent: seq<Finding>): Restoring {
    if rows == [] then s
    else RestoreFinding(AllFindings(s, rows[..|rows| - 1], sent), rows[|rows| - 1], |rows| - 1, sent)
  }

  function Opening(ops: seq<Operation>): Restoring {
    Restoring(UsedIds(ops), MAX_OPERATIONS - |ops|, NOTHING)
  }

  function Restored(ops: seq<Operation>, evidence: seq<Evidence>, coverage: seq<Coverage>, findings: seq<Finding>)
    : CarriedRecords
  {
    if ops == [] then NOTHING
    else
      var one := AllEvidence(Opening(ops), evidence, SentEvidence(ops));
      var two := AllCoverage(one, coverage, SentCoverage(ops));
      AllFindings(two, findings, SentFindings(ops)).records
  }

  /** The first pass of restoration: what the round itself sent. */
  method Survey(ops: seq<Operation>)
    returns (used: set<string>, sentEvidence: set<string>, sentCoverage: set<string>, sentFindings: seq<Finding>)
    ensures used == UsedIds(ops)
    ensures sentEvidence == SentEvidence(ops)
    ensures sentCoverage == SentCoverage(ops)
    ensures sentFindings == SentFindings(ops)
  {
    hide Trim, Lower, FindingKey, UsedIds, SentEvidence, SentCoverage, SentFindings;
    SurveyNone();
    assert ops[..0] == [];
    used, sentEvidence, sentCoverage, sentFindings := {}, {}, {}, [];
    for i := 0 to |ops|
      invariant used == UsedIds(ops[..i])
      invariant sentEvidence == SentEvidence(ops[..i])
      invariant sentCoverage == SentCoverage(ops[..i])
      invariant sentFindings == SentFindings(ops[..i])
    {
      var op := ops[i];
      SurveyNext(ops, i);
      used := used + {op.id};
      match op.body
      case RecordEvidence(e) =>
        sentEvidence := sentEvidence + {op.id};
        if e.id != "" { sentEvidence := sentEvidence + {e.id}; }
      case RecordCoverage(c) => sentCoverage := sentCoverage + {CoverageIdentity(c.layer)};
      case RecordFinding(f) =>
        var finding := f.(id := op.id);
        if finding.key == "" { finding := finding.(key := FindingKey(op.id)); }
        sentFindings := sentFindings + [finding];
      case CompleteEpisode(c) =>
        var layers := sentCoverage;
        for k := 0 to |c.coverage|
          invariant sentCoverage == layers + Layers(c.coverage[..k])
        {
          assert c.coverage[..k + 1] == c.coverage[..k] + [c.coverage[k]];
          LayersSnoc(c.coverage[..k], c.coverage[k]);
          sentCoverage := sentCoverage + {CoverageIdentity(c.coverage[k].layer)};
        }
        assert c.coverage[..|c.coverage|] == c.coverage;
      case _ =>
    }
    assert ops[..|ops|] == ops;
  }

  lemma LayersSnoc(rows: seq<Coverage>, row: Coverage)
    ensures Layers(rows + [row]) == Layers(rows) + {CoverageIdentity(row.layer)}
  {
    hide CoverageIdentity;
    assert forall i :: 0 <= i < |rows| ==> (rows + [row])[i] == rows[i];
    assert (rows + [row])[|rows|] == row;
  }

  lemma SurveyNone()
    ensures UsedIds([]) == {} && SentEvidence([]) == {} && SentCoverage([]) == {} && SentFindings([]) == []
  {
  }

  lemma SurveyNext(ops: seq<Operation>, i: nat)
    requires i < |ops|
    ensures UsedIds(ops[..i + 1]) == UsedIds(ops[..i]) + {ops[i].id}
    ensures SentEvidence(ops[..i + 1]) == SentEvidence(ops[..i]) + EvidenceNames(ops[i])
    ensures SentCoverage(ops[..i + 1]) == SentCoverage(ops[..i]) + LayerNames(ops[i])
    ensures SentFindings(ops[..i + 1]) == SentFindings(ops[..i]) + FindingNames(ops[i])
  {
    hide EvidenceNames, LayerNames, FindingNames;
    assert ops[..i + 1] == ops[..i] + [ops[i]];
    Snoc(ops[..i], ops[i], FindingNames);
  }

  /** RestoreCarriedRecords */
  method RestoreCarriedRecords(
    ops: seq<Operation>, evidence: seq<Evidence>, coverage: seq<Coverage>, findings: seq<Finding>)
    returns (restored: CarriedRecords)
    ensures restored == Restored(ops, evidence, coverage, findings)
  {
    hide Put, EvidenceOp, CoverageOp, RestoredFindingId, Answered, CoverageIdentity, FindingKey,
         UsedIds, SentEvidence, SentCoverage, SentFindings;
    if ops == [] { return NOTHING; }
    var used, sentEvidence, sentCoverage, sentFindings := Survey(ops);
    var state := Restoring(used, MAX_OPERATIONS - |ops|, NOTHING);
    for i := 0 to |evidence|
      invariant state == AllEvidence(Opening(ops), evidence[..i], sentEvidence)
    {
      var row := evidence[i];
      assert evidence[..i + 1][..i] == evidence[..i];
      if row.id != "" && row.id !in sentEvidence {
        state := Add(state, EvidenceOp(row));
      }
    }
    assert evidence[..|evidence|] == evidence;
    ghost var one := state;
    for i := 0 to |coverage|
      invariant state == AllCoverage(one, coverage[..i], sentCoverage)
    {
      var row := coverage[i];
      assert coverage[..i + 1][..i] == coverage[..i];
      if CoverageIdentity(row.layer) !in sentCoverage {
        state := Add(state, CoverageOp(row, i));
      }
    }
    assert coverage[..|coverage|] == coverage;
    ghost var two := state;
    for i := 0 to |findings|
      invariant state == AllFindings(two, findings[..i], sentFindings)
    {
      assert findings[..i + 1][..i] == findings[..i];
      state := PutFinding(state, findings[i], i, sentFindings);
    }
    assert findings[..|findings|] == findings;
    restored := state.records;
  }

  /** The closure every kind of row goes through, and the append that follows it. */
  method Add(state: Restoring, op: Operation) returns (next: Restoring)
    ensures next == Put(state, op)
  {
    hide Valid;
    next := state;
    if state.room <= 0 || op.id in state.used || !Valid(op) { return; }
    next := Taken(state, op);
    next := next.(records := Filed(next.records, op.body));
  }

  /** The findings loop's body. */
  method PutFinding(state: Restoring, item: Finding, index: nat, sent: seq<Finding>) returns (next: Restoring)
    ensures next == RestoreFinding(state, item, index, sent)
  {
    hide Put, Answered, FindingKey, ByteLen, CarriedOperationId;
    next := state;
    if Answered(item, sent) { return; }
    var row := item;
    if row.key == "" { row := row.(key := FindingKey(row.id)); }
    var id := row.id;
    if id == "" { id := row.key; }
    if id == "" || id in state.used || ByteLen(id) > MAX_ID_BYTES {
      id := CarriedOperationId("carried-finding-", row.what, index);
    }
    row := row.(key := FindingKey(id));
    next := Add(state, Operation(id, RecordFinding(row)));
  }

  function Inserted(ops: seq<Operation>, insert: seq<Operation>): seq<Operation> {
    var at := CompletionAt(ops);
    ops[..at] + insert + ops[at..]
  }

  /** InsertBeforeCompletion */
  method InsertBeforeCompletion(ops: seq<Operation>, insert: seq<Operation>) returns (result: seq<Operation>)
    ensures result == Inserted(ops, insert)
  {
    if insert == [] {
      assert ops == ops[..CompletionAt(ops)] + [] + ops[CompletionAt(ops)..];
      return ops;
    }
    var at := |ops|;
    for index := 0 to |ops|
      invariant at == |ops|
      invariant forall i :: 0 <= i < index ==> !ops[i].body.CompleteEpisode?
    {
      if ops[index].body.CompleteEpisode? {
        at := index;
        break;
      }
    }
    FirstCompletion(ops, at);
    result := ops[..at] + insert + ops[at..];
  }

  lemma FirstCompletion(ops: seq<Operation>, at: nat)
    requires at <= |ops| && (at < |ops| ==> ops[at].body.CompleteEpisode?)
    requires forall i :: 0 <= i < at ==> !ops[i].body.CompleteEpisode?
    ensures CompletionAt(ops) == at
  {
  }
}
