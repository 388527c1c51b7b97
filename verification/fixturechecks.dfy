/** What the corpus check decides: nothing enters the corpus that did not pass, nothing
    is held back that did. */
module FixtureChecks {
  import opened FixturePromotion
  import opened FixtureRuns

  /** The sweep as it comes to the candidate at a place of its batch. */
  function Before(w: World, approved: seq<Candidate>, perWeek: int, now: int, judge: Judge, writes: nat, i: nat): Sweep
    requires i <= |Unsettled(approved, w.receipts, PROMOTION_BATCH)|
  {
    Drained(Opening(w, perWeek, now, writes), Unsettled(approved, w.receipts, PROMOTION_BATCH)[..i], now, judge)
  }

  /** A live sweep knows exactly what is in the corpus, and none of the candidates still
      to come has a receipt. */
  ghost predicate Aware(s: Sweep, rest: seq<Candidate>) {
    && (!s.dead ==> s.present == Episodes(s.world.corpus))
    && (forall i :: 0 <= i < |rest| ==> !Settled(s.world.receipts, rest[i].id))
    && DistinctIds(rest)
  }

  lemma VisitAware(s: Sweep, c: Candidate, rest: seq<Candidate>, now: int, judge: Judge)
    requires Aware(s, [c] + rest)
    ensures Aware(Visited(s, c, now, judge), rest)
  {
    hide Settled;
    RestOf(s.world.receipts, c, rest);
    SettledSnoc(s.world.receipts, Receipt(c.id, c.episode, false, now));
    SettledSnoc(s.world.receipts, Receipt(c.id, c.episode, true, now));
    EpisodesSnoc(s.world.corpus, Fixture(c.episode, now));
    hide Episodes;
  }

  lemma EpisodesSnoc(corpus: seq<Fixture>, f: Fixture)
    ensures Episodes(corpus + [f]) == Episodes(corpus) + {f.episode}
  {
    var more := corpus + [f];
    assert more[|corpus|] == f && forall i :: 0 <= i < |corpus| ==> more[i] == corpus[i];
  }

  lemma {:induction false} DrainAware(s: Sweep, batch: seq<Candidate>, i: nat, now: int, judge: Judge)
    requires i <= |batch| && Aware(s, batch)
    ensures Aware(Drained(s, batch[..i], now, judge), batch[i..])
    decreases i
  {
    hide Aware, Visited;
    if i > 0 {
      DrainAware(s, batch, i - 1, now, judge);
      assert [batch[i - 1]] + batch[i..] == batch[i - 1..];
      DrainedNext(s, batch, i - 1, now, judge);
      VisitAware(Drained(s, batch[..i - 1], now, judge), batch[i - 1], batch[i..], now, judge);
    }
  }

  lemma OpeningAware(w: World, approved: seq<Candidate>, perWeek: int, now: int, writes: nat)
    requires DistinctIds(approved)
    ensures Aware(Opening(w, perWeek, now, writes), Unsettled(approved, w.receipts, PROMOTION_BATCH))
  {
    hide Settled, Unsettled, DistinctIds, Episodes;
    BatchOk(approved, w.receipts);
  }

  /** A candidate whose episode is absent, coming to a live process with allowance and a
      write left, is appended if it passes against the corpus of that moment, with its
      receipt if the process lives to write it, and is held back if it fails. */
  lemma CandidateIsAnswered(
    w: World, approved: seq<Candidate>, perWeek: int, now: int, judge: Judge, writes: nat, i: nat)
    requires DistinctIds(approved) && i < |Unsettled(approved, w.receipts, PROMOTION_BATCH)|
    ensures var c := Unsettled(approved, w.receipts, PROMOTION_BATCH)[i];
            var s := Before(w, approved, perWeek, now, judge, writes, i);
            var t := Before(w, approved, perWeek, now, judge, writes, i + 1);
            var corpus, receipts := s.world.corpus, s.world.receipts;
            if s.dead || s.remaining <= 0 || c.episode in Episodes(corpus) then t == s
            else if s.writes == 0 then t.dead && t.world == s.world
            else if !judge(c, corpus) then
              && t.world == s.world.(receipts := receipts + [Receipt(c.id, c.episode, false, now)])
              && !t.dead && t.remaining == s.remaining && t.writes == s.writes - 1
            else
              && t.world.corpus == corpus + [Fixture(c.episode, now)]
              && (if s.writes == 1 then t.dead && t.world.receipts == receipts
                  else !t.dead && t.world.receipts == receipts + [Receipt(c.id, c.episode, true, now)]
                       && t.remaining == s.remaining - 1 && t.writes == s.writes - 2)
  {
    hide Settled, Unsettled, Episodes, PromotedSince;
    var batch := Unsettled(approved, w.receipts, PROMOTION_BATCH);
    OpeningAware(w, approved, perWeek, now, writes);
    DrainAware(Opening(w, perWeek, now, writes), batch, i, now, judge);
    DrainedNext(Opening(w, perWeek, now, writes), batch, i, now, judge);
    assert batch[i..][0] == batch[i];
    hide Drained;
  }

  // ---- Over whole runs ----

  /** A line appended at a place of the corpus is that of an approved candidate that
      passed against the lines before it. */
  ghost predicate Passed(approved: seq<Candidate>, corpus: seq<Fixture>, p: nat, now: int, judge: Judge) {
    p < |corpus| && exists c: Candidate :: c in approved && corpus[p] == Fixture(c.episode, now) && judge(c, corpus[..p])
  }

  /** A receipt that holds a candidate back is that of one that failed against the lines
      there were. */
  ghost predicate Failed(approved: seq<Candidate>, corpus: seq<Fixture>, r: Receipt, now: int, judge: Judge) {
    exists c: Candidate, m: nat ::
      m <= |corpus| && c in approved && r == Receipt(c.id, c.episode, false, now) && !judge(c, corpus[..m])
  }

  lemma PassedStays(approved: seq<Candidate>, later: seq<Candidate>, corpus: seq<Fixture>, more: seq<Fixture>, p: nat,
                    now: int, judge: Judge)
    requires Passed(approved, corpus, p, now, judge) && |corpus| <= |more| && more[..|corpus|] == corpus
    requires forall c :: c in approved ==> c in later
    ensures Passed(later, more, p, now, judge)
  {
    var c: Candidate :| c in approved && corpus[p] == Fixture(c.episode, now) && judge(c, corpus[..p]);
    assert more[p] == more[..|corpus|][p] && more[..p] == corpus[..p];
  }

  lemma FailedStays(approved: seq<Candidate>, later: seq<Candidate>, corpus: seq<Fixture>, more: seq<Fixture>, r: Receipt,
                    now: int, judge: Judge)
    requires Failed(approved, corpus, r, now, judge) && |corpus| <= |more| && more[..|corpus|] == corpus
    requires forall c :: c in approved ==> c in later
    ensures Failed(later, more, r, now, judge)
  {
    var c: Candidate, m: nat :|
      m <= |corpus| && c in approved && r == Receipt(c.id, c.episode, false, now) && !judge(c, corpus[..m]);
    assert more[..m] == corpus[..m];
  }

  /** The corpus and the receipts only grow. */
  ghost predicate Grown(w: World, t: World) {
    && |w.corpus| <= |t.corpus| && t.corpus[..|w.corpus|] == w.corpus
    && |w.receipts| <= |t.receipts| && t.receipts[..|w.receipts|] == w.receipts
  }

  ghost predicate Justified(approved: seq<Candidate>, w: World, t: World, now: int, judge: Judge) {
    && Grown(w, t)
    && (forall p :: |w.corpus| <= p < |t.corpus| ==> Passed(approved, t.corpus, p, now, judge))
    && (forall j :: |w.receipts| <= j < |t.receipts| && !t.receipts[j].promoted ==>
          Failed(approved, t.corpus, t.receipts[j], now, judge))
  }

  lemma VisitJustified(approved: seq<Candidate>, s: Sweep, c: Candidate, now: int, judge: Judge)
    requires c in approved
    ensures Justified(approved, s.world, Visited(s, c, now, judge).world, now, judge)
  {
    hide Settled;
    var w, t := s.world, Visited(s, c, now, judge).world;
    forall p | |w.corpus| <= p < |t.corpus| ensures Passed(approved, t.corpus, p, now, judge) {
      assert t.corpus[p] == Fixture(c.episode, now) && t.corpus[..p] == w.corpus;
    }
    forall j | |w.receipts| <= j < |t.receipts| && !t.receipts[j].promoted
      ensures Failed(approved, t.corpus, t.receipts[j], now, judge)
    {
      assert t.receipts[j] == Receipt(c.id, c.episode, false, now);
      assert t.corpus[..|w.corpus|] == w.corpus;
    }
  }

  lemma JustifiedTwice(approved: seq<Candidate>, w: World, t: World, u: World, now: int, judge: Judge)
    requires Justified(approved, w, t, now, judge) && Justified(approved, t, u, now, judge)
    ensures Justified(approved, w, u, now, judge)
  {
    hide Passed, Failed;
    GrownTwice(w, t, u);
    forall p | |w.corpus| <= p < |u.corpus| ensures Passed(approved, u.corpus, p, now, judge) {
      if p < |t.corpus| { PassedStays(approved, approved, t.corpus, u.corpus, p, now, judge); }
    }
    forall j | |w.receipts| <= j < |u.receipts| && !u.receipts[j].promoted
      ensures Failed(approved, u.corpus, u.receipts[j], now, judge)
    {
      if j < |t.receipts| {
        assert u.receipts[j] == u.receipts[..|t.receipts|][j] == t.receipts[j];
        FailedStays(approved, approved, t.corpus, u.corpus, t.receipts[j], now, judge);
      }
    }
  }

  lemma GrownTwice(w: World, t: World, u: World)
    requires Grown(w, t) && Grown(t, u)
    ensures Grown(w, u)
  {
    assert u.corpus[..|w.corpus|] == u.corpus[..|t.corpus|][..|w.corpus|];
    assert u.receipts[..|w.receipts|] == u.receipts[..|t.receipts|][..|w.receipts|];
  }

  lemma {:induction false} DrainJustified(approved: seq<Candidate>, s: Sweep, batch: seq<Candidate>, now: int, judge: Judge)
    requires forall i :: 0 <= i < |batch| ==> batch[i] in approved
    ensures Justified(approved, s.world, Drained(s, batch, now, judge).world, now, judge)
  {
    hide Visited, Justified;
    if batch == [] {
      NothingJustified(approved, s.world, now, judge);
    } else {
      DrainJustified(approved, s, batch[..|batch| - 1], now, judge);
      var t := Drained(s, batch[..|batch| - 1], now, judge);
      VisitJustified(approved, t, batch[|batch| - 1], now, judge);
      JustifiedTwice(approved, s.world, t.world, Drained(s, batch, now, judge).world, now, judge);
    }
  }

  lemma NothingJustified(approved: seq<Candidate>, w: World, now: int, judge: Judge)
    ensures Justified(approved, w, w, now, judge)
  {
  }

  lemma {:induction false} UnsettledApproved(approved: seq<Candidate>, receipts: seq<Receipt>)
    ensures forall c :: c in AllUnsettled(approved, receipts) ==> c in approved
  {
    hide Settled;
    if approved != [] {
      UnsettledApproved(approved[..|approved| - 1], receipts);
    }
  }

  lemma SweepJustified(w: World, approved: seq<Candidate>, perWeek: int, now: int, judge: Judge, writes: nat)
    ensures Justified(approved, w, Swept(w, approved, perWeek, now, judge, writes), now, judge)
  {
    hide Justified, Drained, AllUnsettled;
    NothingJustified(approved, w, now, judge);
    UnsettledApproved(approved, w.receipts);
    var all, batch := AllUnsettled(approved, w.receipts), Unsettled(approved, w.receipts, PROMOTION_BATCH);
    assert forall i :: 0 <= i < |batch| ==> batch[i] == all[i] && all[i] in all;
    DrainJustified(approved, Opening(w, perWeek, now, writes), batch, now, judge);
  }

  /** Some sweep of the run appended the line. */
  ghost predicate PassedIn(events: seq<Event>, s: State, p: nat) {
    exists k :: 0 <= k < |events| && events[k].SweepAt?
                && Passed(s.approved, s.world.corpus, p, events[k].now, events[k].judge)
  }

  /** Some sweep of the run held the candidate back. */
  ghost predicate FailedIn(events: seq<Event>, s: State, r: Receipt) {
    exists k :: 0 <= k < |events| && events[k].SweepAt?
                && Failed(s.approved, s.world.corpus, r, events[k].now, events[k].judge)
  }

  lemma PassedLater(events: seq<Event>, e: Event, s: State, t: State, p: nat)
    requires PassedIn(events, s, p) && Grown(s.world, t.world) && forall c :: c in s.approved ==> c in t.approved
    ensures PassedIn(events + [e], t, p)
  {
    hide Passed;
    var k :| 0 <= k < |events| && events[k].SweepAt?
             && Passed(s.approved, s.world.corpus, p, events[k].now, events[k].judge);
    PassedStays(s.approved, t.approved, s.world.corpus, t.world.corpus, p, events[k].now, events[k].judge);
    assert (events + [e])[k] == events[k];
  }

  lemma FailedLater(events: seq<Event>, e: Event, s: State, t: State, r: Receipt)
    requires FailedIn(events, s, r) && Grown(s.world, t.world) && forall c :: c in s.approved ==> c in t.approved
    ensures FailedIn(events + [e], t, r)
  {
    hide Failed;
    var k :| 0 <= k < |events| && events[k].SweepAt?
             && Failed(s.approved, s.world.corpus, r, events[k].now, events[k].judge);
    FailedStays(s.approved, t.approved, s.world.corpus, t.world.corpus, r, events[k].now, events[k].judge);
    assert (events + [e])[k] == events[k];
  }

  ghost predicate Checked(events: seq<Event>, s: State, seeded: nat) {
    && (forall p :: seeded <= p < |s.world.corpus| ==> PassedIn(events, s, p))
    && (forall r :: r in s.world.receipts && !r.promoted ==> FailedIn(events, s, r))
  }

  lemma ApprovalKeepsChecked(events: seq<Event>, s: State, seeded: nat, perWeek: int, e: Event)
    requires Checked(events, s, seeded) && e.Approve?
    ensures Checked(events + [e], Next(perWeek, s, e), seeded) && Next(perWeek, s, e).world == s.world
  {
    hide PassedIn, FailedIn, Fresh;
    var t := Next(perWeek, s, e);
    if e.at <= |s.approved| { assert s.approved == s.approved[..e.at] + s.approved[e.at..]; }
    forall p | seeded <= p < |t.world.corpus| ensures PassedIn(events + [e], t, p) {
      PassedLater(events, e, s, t, p);
    }
    forall r | r in t.world.receipts && !r.promoted ensures FailedIn(events + [e], t, r) {
      FailedLater(events, e, s, t, r);
    }
  }

  lemma SweepKeepsChecked(events: seq<Event>, s: State, seeded: nat, perWeek: int, e: Event)
    requires Checked(events, s, seeded) && e.SweepAt?
    ensures Checked(events + [e], Next(perWeek, s, e), seeded) && Grown(s.world, Next(perWeek, s, e).world)
  {
    hide Swept, Passed, Failed;
    var t := Next(perWeek, s, e);
    SweepJustified(s.world, s.approved, perWeek, e.now, e.judge, e.writes);
    assert (events + [e])[|events|] == e;
    forall p | seeded <= p < |t.world.corpus| ensures PassedIn(events + [e], t, p) {
      if p < |s.world.corpus| { PassedLater(events, e, s, t, p); }
    }
    forall r | r in t.world.receipts && !r.promoted ensures FailedIn(events + [e], t, r) {
      var j :| 0 <= j < |t.world.receipts| && t.world.receipts[j] == r;
      if j < |s.world.receipts| {
        assert t.world.receipts[..|s.world.receipts|][j] == s.world.receipts[j];
        FailedLater(events, e, s, t, r);
      }
    }
  }

  /** In every run, each line the drain appended is that of an approved candidate that
      passed the check of its sweep against the corpus as it stood just before, and each
      candidate held back failed it against a corpus of that run. */
  lemma {:induction false} RunIsChecked(perWeek: int, corpus: seq<Fixture>, events: seq<Event>)
    ensures Checked(events, Run(perWeek, Start(corpus), events), |corpus|)
    ensures Grown(World(corpus, [], []), Run(perWeek, Start(corpus), events).world)
    decreases |events|
  {
    hide Checked, Next;
    if events == [] {
      NothingChecked(corpus);
    } else {
      var front, e := events[..|events| - 1], events[|events| - 1];
      RunIsChecked(perWeek, corpus, front);
      var s := Run(perWeek, Start(corpus), front);
      assert front + [e] == events;
      if e.Approve? {
        ApprovalKeepsChecked(front, s, |corpus|, perWeek, e);
      } else {
        SweepKeepsChecked(front, s, |corpus|, perWeek, e);
        GrownTwice(World(corpus, [], []), s.world, Next(perWeek, s, e).world);
      }
    }
  }

  lemma NothingChecked(corpus: seq<Fixture>)
    ensures Checked([], Start(corpus), |corpus|)
  {
  }

  // ---- One receipt to a candidate ----

  ghost predicate OneEach(receipts: seq<Receipt>) {
    forall i, j :: 0 <= i < j < |receipts| ==> receipts[i].candidate != receipts[j].candidate
  }

  lemma {:induction false} DrainOneEach(s: Sweep, batch: seq<Candidate>, now: int, judge: Judge)
    requires OneEach(s.world.receipts)
    ensures OneEach(Drained(s, batch, now, judge).world.receipts)
  {
    if batch != [] {
      DrainOneEach(s, batch[..|batch| - 1], now, judge);
    }
  }

  /** However often and in whatever batch a candidate comes, it has one receipt. */
  lemma {:induction false} OneReceiptEach(perWeek: int, s: State, events: seq<Event>)
    requires OneEach(s.world.receipts)
    ensures OneEach(Run(perWeek, s, events).world.receipts)
  {
    hide Drained, OneEach, Unsettled, Fresh;
    if events != [] {
      OneReceiptEach(perWeek, s, events[..|events| - 1]);
      var t, e := Run(perWeek, s, events[..|events| - 1]), events[|events| - 1];
      match e
      case Approve(_, _) =>
      case SweepAt(now, judge, writes) =>
        DrainOneEach(Opening(t.world, perWeek, now, writes), Unsettled(t.approved, t.world.receipts, PROMOTION_BATCH), now, judge);
    }
  }
}
