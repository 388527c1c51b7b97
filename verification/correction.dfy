/** Whether the correction an unreadable envelope asks for can be given. */
module Correction {
  import opened Options
  import opened Text
  import opened Investigation
  import opened Fold
  import opened FoldSpec
  import opened Refold
  import opened Decisions
  import opened Persistence
  import opened Suppression
  import opened Envelope
  import opened Image

  /** The same decision with its result moved into a stream. */
  function Moved(d: Decision, ops: seq<Operation>): Decision {
    d.(result := EMPTY, operations := ops)
  }

  /** The stream says what the envelope said: same action, same fields up to
      evidence and finding ids. */
  ghost predicate Answers(d: Decision, ops: seq<Operation>) {
    && ops != [] && ReadOperations(Moved(d, ops)).Some?
    && ReadOperations(Moved(d, ops)).value.action == d.action
    && Unnamed(ReadOperations(Moved(d, ops)).value.result) == Unnamed(d.result)
  }

  lemma {:induction false} NoQuestions(message: string, ops: seq<Operation>)
    requires forall i :: 0 <= i < |ops| ==> !ops[i].body.RecordFeedback?
    ensures WithFollowup(message, ops) == message
    decreases |ops|
  {
    if ops != [] {
      NoQuestions(message, ops[1..]);
      hide Trim, Contains;
    }
  }

  lemma {:induction false} StillNotBlank(message: string, ops: seq<Operation>)
    requires !Blank(message)
    ensures !Blank(WithFollowup(message, ops))
    decreases |ops|
  {
    hide Trim, Contains, Asks;
    if ops != [] {
      if !Asks(ops[0], message) {
        StillNotBlank(message, ops[1..]);
      } else {
        assert ops[0].body.RecordFeedback? by { AskedByFeedback(ops[0], message); }
        LongerNotBlank(message, Trim(ops[0].body.feedback.question));
      }
    }
  }

  lemma LongerNotBlank(message: string, question: string)
    requires !Blank(message)
    ensures !Blank(Trim(message) + "\n\n" + question) && Trim(message) != ""
  {
    hide Trim;
    TrimIsTight(message);
    TrimBegins(Trim(message) + "\n\n" + question);
  }

  lemma StreamAsksNothing(p: Projection)
    requires Cost(p) <= MAX_OPERATIONS
    ensures var applied := AppliedAll(StreamFor(p));
            forall i :: 0 <= i < |applied| ==> !applied[i].body.RecordFeedback?
  {
    hide Trim, FindingKey, Name, CompletionOf;
  }

  /** A reply envelope can be said again in typed operations exactly when it is
      expressible: a message, valid rows, titled work, a primary schedule before
      any other, and no more than a hundred operations in all. */
  lemma ReplyCorrection(d: Decision)
    requires FromJson(d) && Blank(d.suppressed) && d.action == "reply"
    ensures (exists ops :: Answers(d, ops)) <==> Expressible(d.result)
  {
    hide Folded, Expressible, Unnamed, Blank, CanonicalAll, WithFollowup, SilentWait, Suppressed, SilentMemory,
         StreamFor, AppliedAll, Acceptable, Declared, Payloads;
    if Expressible(d.result) {
      var p := d.result;
      ExpressibleCost(p);
      StreamSays(p);
      RenamedIsUnnamed(p);
      FoldExactly(Watch, StreamFor(p), true);
      StreamAsksNothing(p);
      NoQuestions(Renamed(p).reply.message, AppliedAll(StreamFor(p)));
      assert Answers(d, StreamFor(p));
    }
    if ops :| Answers(d, ops) {
      SaidIsExpressible(ops);
      var s := Folded(Watch, ops, true).value;
      SameContents(Asked(s.result, s.applied), d.result);
      AskedExpressible(s.result, s.applied);
      ExpressibleUnnamed(Asked(s.result, s.applied), d.result);
    }
  }

  lemma AskedExpressible(p: Projection, ops: seq<Operation>)
    requires Expressible(p)
    ensures Expressible(Asked(p, ops))
  {
    hide RowsSayable, WorkSayable, SchedulesSayable, Blank, WithFollowup;
    StillNotBlank(p.reply.message, ops);
  }

  /** Only memory, whatever its owner. */
  predicate OnlyMemory(p: Projection) {
    p == EMPTY.(reply := EMPTY.reply.(memory := p.reply.memory)) && p.reply.memory != NO_MEMORY
  }

  lemma UnnamedMemory(p: Projection, q: Projection)
    requires Unnamed(p) == Unnamed(q)
    ensures p.reply == q.reply
  {
  }

  /** An ignored message that only updates memory can be said again in typed
      operations exactly when it reports no publication update beside it. */
  lemma IgnoreCorrection(d: Decision)
    requires Blank(d.suppressed) && d.action == "ignore" && OnlyMemory(d.result)
    ensures (exists ops :: Answers(d, ops)) <==> d.updates == []
  {
    hide Folded, Unnamed, Blank, CanonicalAll, WithFollowup, Waits, Valid, AllTaken, HasWait, WaitStream;
    if d.updates == [] {
      var op := Operation("m", UpdateMemory(d.result.reply.memory));
      OneUpdate(d, op);
      assert Answers(d, [op]);
    }
    if ops :| Answers(d, ops) {
      UnnamedMemory(ReadOperations(Moved(d, ops)).value.result, d.result);
      assert HasMemoryUpdate(ops);
    }
  }

  lemma OneUpdate(d: Decision, op: Operation)
    requires d.action == "ignore" && d.updates == [] && OnlyMemory(d.result) && Blank(d.suppressed)
    requires op == Operation("m", UpdateMemory(d.result.reply.memory))
    ensures ReadOperations(Moved(d, [op])).Some?
    ensures ReadOperations(Moved(d, [op])).value.action == "ignore"
    ensures ReadOperations(Moved(d, [op])).value.result == d.result
  {
    hide Valid, Folded, Blank, Suppressed, SilentWait;
    assert [op][0] == op;
    ValidUpdate(op);
    NothingSaid();
    assert HasMemoryUpdate([op]);
    assert !HasWait([op]);
  }

  lemma ValidUpdate(op: Operation)
    requires op.id == "m" && op.body.UpdateMemory?
    ensures Valid(op)
  {
    hide Trim, ByteLen;
    TrimFixed("m");
    AsciiBytes("m");
  }

  lemma NothingSaid()
    ensures SaysNothing(EMPTY, [])
  {
    TrimFixed("");
    hide Trim;
  }

  /** The exact condition under which an envelope the host sends back has a typed
      answer at all. */
  lemma EnvelopeCorrectionIsSatisfiable(d: Decision)
    requires FromJson(d) && Blank(d.suppressed) && Unreadable(d)
    ensures (exists ops :: Answers(d, ops)) <==> if d.action == "reply" then Expressible(d.result) else d.updates == []
  {
    hide Answers, Expressible, Misplaced, Blank;
    NothingElseToMove(d);
    if d.action == "reply" {
      ReplyCorrection(d);
    } else {
      IgnoreCorrection(d);
    }
  }

  /** A stream never opens an incident, and an ignore nobody suppressed that waits
      for nothing is one memory update and nothing else. */
  lemma StreamsReplyOrStaySilent(d: Decision)
    requires d.operations != [] && ReadOperations(d).Some?
    ensures ReadOperations(d).value.action == "reply" || ReadOperations(d).value.action == "ignore"
    ensures ReadOperations(d).value.action == "ignore" && Blank(d.suppressed) && !HasWait(d.operations) ==>
              |d.operations| == 1 && d.operations[0].body.UpdateMemory?
  {
    hide Folded, CanonicalAll, WithFollowup, AllTaken, HasWait, WaitStream, Valid, SaysNothing, Blank,
         OperationCompletion;
  }
}
