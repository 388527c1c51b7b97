/** Whole runs of the promotion drain: sweeps, crashes between the corpus and the
    receipt, and approvals in between. */
module FixtureRuns {
  import opened FixturePromotion

  /** A candidate approved at some place of the creation order, or a sweep that lives
      to make so many durable writes. */
  datatype Event = Approve(at: nat, candidate: Candidate) | SweepAt(now: int, judge: Judge, writes: nat)

  datatype State = State(world: World, approved: seq<Candidate>)

  predicate Fresh(approved: seq<Candidate>, id: string) {
    forall i :: 0 <= i < |approved| ==> approved[i].id != id
  }

  function Next(perWeek: int, s: State, e: Event): State {
    match e
    case Approve(at, c) =>
      if at <= |s.approved| && Fresh(s.approved, c.id) then s.(approved := s.approved[..at] + [c] + s.approved[at..]) else s
    case SweepAt(now, judge, writes) => s.(world := Swept(s.world, s.approved, perWeek, now, judge, writes))
  }

  function Run(perWeek: int, s: State, events: seq<Event>): State {
    if events == [] then s else Next(perWeek, Run(perWeek, s, events[..|events| - 1]), events[|events| - 1])
  }

  function Start(corpus: seq<Fixture>): State {
    State(World(corpus, [], []), [])
  }

  // ---- Counting by time ----

  function CountIn(times: seq<int>, a: int, b: int): nat {
    if times == [] then 0
    else CountIn(times[..|times| - 1], a, b) + if a <= times[|times| - 1] <= b then 1 else 0
  }

  function AppendTimes(corpus: seq<Fixture>): (r: seq<int>)
    ensures |r| == |corpus|
  {
    seq(|corpus|, i requires 0 <= i < |corpus| => corpus[i].at)
  }

  function PromotionTimes(receipts: seq<Receipt>): seq<int> {
    if receipts == [] then []
    else
      var last := receipts[|receipts| - 1];
      var before := PromotionTimes(receipts[..|receipts| - 1]);
      if last.promoted then before + [last.at] else before
  }

  lemma CountInSnoc(times: seq<int>, t: int, a: int, b: int)
    ensures CountIn(times + [t], a, b) == CountIn(times, a, b) + if a <= t <= b then 1 else 0
  {
    assert (times + [t])[..|times|] == times;
  }

  lemma PromotionSnoc(receipts: seq<Receipt>, r: Receipt)
    ensures PromotionTimes(receipts + [r])
            == if r.promoted then PromotionTimes(receipts) + [r.at] else PromotionTimes(receipts)
    ensures forall since :: PromotedSince(receipts + [r], since)
                         == PromotedSince(receipts, since) + if r.promoted && r.at >= since then 1 else 0
  {
    assert (receipts + [r])[..|receipts|] == receipts;
  }

  lemma {:induction false} SinceIsCountIn(receipts: seq<Receipt>, since: int, now: int)
    requires forall i :: 0 <= i < |receipts| ==> receipts[i].at <= now
    ensures PromotedSince(receipts, since) == CountIn(PromotionTimes(receipts), since, now)
  {
    if receipts != [] {
      var front := receipts[..|receipts| - 1];
      SinceIsCountIn(front, since, now);
      CountInSnoc(PromotionTimes(front), receipts[|receipts| - 1].at, since, now);
    }
  }

  lemma {:induction false} NarrowerCountIn(times: seq<int>, a: int, b: int, c: int)
    requires a <= b && forall i :: 0 <= i < |times| ==> times[i] <= c
    ensures forall d :: CountIn(times, b, d) <= CountIn(times, a, c)
  {
    if times != [] {
      NarrowerCountIn(times[..|times| - 1], a, b, c);
    }
  }

  // ---- What a run keeps ----

  predicate DistinctIds(approved: seq<Candidate>) {
    forall i, j :: 0 <= i < j < |approved| ==> approved[i].id != approved[j].id
  }

  predicate NoneAfter(w: World, now: int) {
    forall i :: 0 <= i < |w.receipts| ==> w.receipts[i].at <= now
  }

  /** Nothing enters the corpus twice: every line the drain appended replays an
      episode no line before it replays. */
  ghost predicate NoRepeats(corpus: seq<Fixture>, seeded: nat) {
    seeded <= |corpus|
    && forall i, j :: 0 <= i < j < |corpus| && seeded <= j ==> corpus[i].episode != corpus[j].episode
  }

  ghost predicate PromotedArePresent(w: World) {
    forall i :: 0 <= i < |w.receipts| && w.receipts[i].promoted ==> w.receipts[i].episode in Episodes(w.corpus)
  }

  /** Every append has its receipt, or the sweep that made it was cut. */
  ghost predicate Accounted(w: World, seeded: nat) {
    seeded <= |w.corpus|
    && forall a, b :: CountIn(AppendTimes(w.corpus[seeded..]), a, b)
                   == CountIn(PromotionTimes(w.receipts), a, b) + CountIn(w.cut, a, b)
  }

  ghost predicate Kept(w: World, seeded: nat) {
    NoRepeats(w.corpus, seeded) && PromotedArePresent(w) && Accounted(w, seeded)
  }

  /** In any seven days at most the week's allowance is promoted. */
  ghost predicate RateKept(w: World, perWeek: int) {
    perWeek >= 0 && forall a, b :: b == a + WEEK ==> CountIn(PromotionTimes(w.receipts), a, b) <= perWeek
  }

  lemma AppendKeeps(w: World, seeded: nat, f: Fixture)
    requires NoRepeats(w.corpus, seeded) && f.episode !in Episodes(w.corpus)
    ensures NoRepeats(w.corpus + [f], seeded)
    ensures Episodes(w.corpus + [f]) == Episodes(w.corpus) + {f.episode}
    ensures forall a, b :: CountIn(AppendTimes((w.corpus + [f])[seeded..]), a, b)
                        == CountIn(AppendTimes(w.corpus[seeded..]), a, b) + if a <= f.at <= b then 1 else 0
  {
    var more := w.corpus + [f];
    assert forall i :: 0 <= i < |w.corpus| ==> more[i] == w.corpus[i];
    assert more[|w.corpus|] == f;
    assert AppendTimes(more[seeded..]) == AppendTimes(w.corpus[seeded..]) + [f.at];
    forall a, b ensures CountIn(AppendTimes(more[seeded..]), a, b)
                     == CountIn(AppendTimes(w.corpus[seeded..]), a, b) + if a <= f.at <= b then 1 else 0 {
      CountInSnoc(AppendTimes(w.corpus[seeded..]), f.at, a, b);
    }
  }

  /** The state of a sweep: what it knows present is what is present, what is left of
      the week's allowance is what has not been promoted, and no candidate still to
      come has a receipt. */
  ghost predicate SweepOk(s: Sweep, seeded: nat, perWeek: int, now: int, rest: seq<Candidate>) {
    && Kept(s.world, seeded) && NoneAfter(s.world, now)
    && (!s.dead ==> s.present == Episodes(s.world.corpus))
    && s.remaining == perWeek - PromotedSince(s.world.receipts, now - WEEK)
    && (forall i :: 0 <= i < |rest| ==> !Settled(s.world.receipts, rest[i].id))
    && DistinctIds(rest)
  }

  lemma SettledSnoc(receipts: seq<Receipt>, r: Receipt)
    ensures forall id :: Settled(receipts + [r], id) <==> Settled(receipts, id) || id == r.candidate
  {
    var more := receipts + [r];
    forall id ensures Settled(more, id) <==> Settled(receipts, id) || id == r.candidate {
      if Settled(receipts, id) {
        var i :| 0 <= i < |receipts| && receipts[i].candidate == id;
        assert more[i] == receipts[i];
      }
      assert more[|receipts|] == r;
      if Settled(more, id) {
        var i :| 0 <= i < |more| && more[i].candidate == id;
        assert i < |receipts| ==> receipts[i] == more[i];
      }
    }
  }

  lemma ReceiptKeeps(w: World, seeded: nat, now: int, r: Receipt)
    requires NoRepeats(w.corpus, seeded) && PromotedArePresent(w) && NoneAfter(w, now) && !Settled(w.receipts, r.candidate)
    requires r.at == now && (r.promoted ==> r.episode in Episodes(w.corpus))
    ensures var t := w.(receipts := Recorded(w.receipts, r));
            && NoRepeats(t.corpus, seeded) && PromotedArePresent(t) && NoneAfter(t, now)
            && t.receipts == w.receipts + [r]
            && PromotedSince(t.receipts, now - WEEK) == PromotedSince(w.receipts, now - WEEK) + (if r.promoted then 1 else 0)
            && (forall a, b :: CountIn(PromotionTimes(t.receipts), a, b)
                            == CountIn(PromotionTimes(w.receipts), a, b) + if r.promoted && a <= now <= b then 1 else 0)
  {
    hide Settled, Episodes;
    PromotionSnoc(w.receipts, r);
    var more := w.receipts + [r];
    assert forall i :: 0 <= i < |w.receipts| ==> more[i] == w.receipts[i];
    assert more[|w.receipts|] == r;
    forall a, b ensures CountIn(PromotionTimes(more), a, b)
                     == CountIn(PromotionTimes(w.receipts), a, b) + if r.promoted && a <= now <= b then 1 else 0 {
      CountInSnoc(PromotionTimes(w.receipts), now, a, b);
    }
    assert WEEK > 0;
  }

  lemma CutKeeps(w: World, seeded: nat, now: int)
    requires seeded <= |w.corpus|
    requires forall a, b :: CountIn(AppendTimes(w.corpus[seeded..]), a, b)
                         == CountIn(PromotionTimes(w.receipts), a, b) + CountIn(w.cut, a, b) + if a <= now <= b then 1 else 0
    ensures Accounted(w.(cut := w.cut + [now]), seeded)
  {
    forall a, b ensures CountIn(w.cut + [now], a, b) == CountIn(w.cut, a, b) + if a <= now <= b then 1 else 0 {
      CountInSnoc(w.cut, now, a, b);
    }
    hide CountIn, AppendTimes, PromotionTimes;
  }

  lemma QuarantineKeeps(s: Sweep, seeded: nat, perWeek: int, now: int, c: Candidate, rest: seq<Candidate>, judge: Judge)
    requires SweepOk(s, seeded, perWeek, now, [c] + rest)
    requires !s.dead && s.remaining > 0 && c.episode !in s.present && s.writes > 0 && !judge(c, s.world.corpus)
    ensures SweepOk(Visited(s, c, now, judge), seeded, perWeek, now, rest)
  {
    hide NoRepeats, PromotedArePresent, CountIn, AppendTimes, PromotionTimes, PromotedSince, Episodes, Settled, DistinctIds;
    RestOf(s.world.receipts, c, rest);
    var r := Receipt(c.id, c.episode, false, now);
    ReceiptKeeps(s.world, seeded, now, r);
    SettledSnoc(s.world.receipts, r);
  }

  lemma RestOf(receipts: seq<Receipt>, c: Candidate, rest: seq<Candidate>)
    requires DistinctIds([c] + rest)
    requires forall i :: 0 <= i < |[c] + rest| ==> !Settled(receipts, ([c] + rest)[i].id)
    ensures !Settled(receipts, c.id) && DistinctIds(rest)
    ensures forall i :: 0 <= i < |rest| ==> !Settled(receipts, rest[i].id) && rest[i].id != c.id
  {
    hide Settled;
    var all := [c] + rest;
    assert all[0] == c;
    assert forall i :: 0 <= i < |rest| ==> all[i + 1] == rest[i];
  }

  lemma PromotionKeeps(s: Sweep, seeded: nat, perWeek: int, now: int, c: Candidate, rest: seq<Candidate>, judge: Judge)
    requires SweepOk(s, seeded, perWeek, now, [c] + rest)
    requires !s.dead && s.remaining > 0 && c.episode !in s.present && s.writes > 0 && judge(c, s.world.corpus)
    ensures SweepOk(Visited(s, c, now, judge), seeded, perWeek, now, rest)
  {
    hide NoRepeats, CountIn, AppendTimes, PromotionTimes, PromotedSince, Episodes, Settled, DistinctIds;
    RestOf(s.world.receipts, c, rest);
    var f := Fixture(c.episode, now);
    AppendKeeps(s.world, seeded, f);
    var w := s.world.(corpus := s.world.corpus + [f]);
    LongerCorpus(w, seeded);
    if s.writes == 1 {
      CutKeeps(w, seeded, now);
    } else {
      var r := Receipt(c.id, c.episode, true, now);
      ReceiptKeeps(w, seeded, now, r);
      SettledSnoc(w.receipts, r);
    }
  }

  lemma LongerCorpus(w: World, seeded: nat)
    requires NoRepeats(w.corpus, seeded)
    ensures seeded <= |w.corpus|
  {
  }

  lemma VisitKeeps(s: Sweep, seeded: nat, perWeek: int, now: int, c: Candidate, rest: seq<Candidate>, judge: Judge)
    requires SweepOk(s, seeded, perWeek, now, [c] + rest)
    ensures SweepOk(Visited(s, c, now, judge), seeded, perWeek, now, rest)
  {
    hide Kept, Episodes, Settled, DistinctIds, PromotedSince;
    RestOf(s.world.receipts, c, rest);
    if s.dead || s.remaining <= 0 || c.episode in s.present || s.writes == 0 {
    } else if judge(c, s.world.corpus) {
      PromotionKeeps(s, seeded, perWeek, now, c, rest, judge);
    } else {
      QuarantineKeeps(s, seeded, perWeek, now, c, rest, judge);
    }
  }

  lemma {:induction false} DrainKeeps(s: Sweep, seeded: nat, perWeek: int, now: int, batch: seq<Candidate>,
                                      rest: seq<Candidate>, judge: Judge)
    requires SweepOk(s, seeded, perWeek, now, batch + rest)
    ensures SweepOk(Drained(s, batch, now, judge), seeded, perWeek, now, rest)
    decreases |batch|
  {
    hide Visited, SweepOk;
    if batch == [] {
      assert batch + rest == rest;
    } else {
      var front, c := batch[..|batch| - 1], batch[|batch| - 1];
      assert batch + rest == front + ([c] + rest);
      DrainKeeps(s, seeded, perWeek, now, front, [c] + rest, judge);
      VisitKeeps(Drained(s, front, now, judge), seeded, perWeek, now, c, rest, judge);
    }
  }

  // ---- Whole sweeps ----

  lemma {:induction false} UnsettledDistinct(approved: seq<Candidate>, receipts: seq<Receipt>)
    requires DistinctIds(approved)
    ensures DistinctIds(AllUnsettled(approved, receipts))
    ensures forall c :: c in AllUnsettled(approved, receipts) ==> c in approved && !Settled(receipts, c.id)
    decreases |approved|
  {
    hide Settled;
    if approved != [] {
      var front, last := approved[..|approved| - 1], approved[|approved| - 1];
      UnsettledDistinct(front, receipts);
      var before := AllUnsettled(front, receipts);
      forall i | 0 <= i < |before| ensures before[i].id != last.id {
        assert before[i] in front;
      }
    }
  }

  lemma BatchOk(approved: seq<Candidate>, receipts: seq<Receipt>)
    requires DistinctIds(approved)
    ensures var batch := Unsettled(approved, receipts, PROMOTION_BATCH);
            && DistinctIds(batch) && (forall i :: 0 <= i < |batch| ==> !Settled(receipts, batch[i].id))
            && (forall i :: 0 <= i < |batch| ==> batch[i] in approved)
  {
    hide Settled;
    UnsettledDistinct(approved, receipts);
    var all, batch := AllUnsettled(approved, receipts), Unsettled(approved, receipts, PROMOTION_BATCH);
    assert forall i :: 0 <= i < |batch| ==> batch[i] == all[i] && all[i] in all;
  }

  lemma SweepOpens(w: World, approved: seq<Candidate>, perWeek: int, now: int, writes: nat, seeded: nat)
    requires Kept(w, seeded) && NoneAfter(w, now) && DistinctIds(approved)
    ensures SweepOk(Opening(w, perWeek, now, writes), seeded, perWeek, now,
                    Unsettled(approved, w.receipts, PROMOTION_BATCH))
  {
    hide Kept, Settled, Unsettled, Episodes, PromotedSince, DistinctIds;
    BatchOk(approved, w.receipts);
  }

  /** A sweep spends no more than was left, and promotes only now. */
  lemma {:induction false} DrainSpends(s: Sweep, batch: seq<Candidate>, now: int, judge: Judge)
    requires s.remaining >= 0
    ensures Drained(s, batch, now, judge).remaining >= 0
    ensures forall a, b :: !(a <= now <= b) ==>
              CountIn(PromotionTimes(Drained(s, batch, now, judge).world.receipts), a, b)
              == CountIn(PromotionTimes(s.world.receipts), a, b)
  {
    hide CountIn, PromotionTimes, Settled;
    if batch != [] {
      var front, c := batch[..|batch| - 1], batch[|batch| - 1];
      DrainSpends(s, front, now, judge);
      var t := Drained(s, front, now, judge);
      RecordedOutside(t.world.receipts, Receipt(c.id, c.episode, false, now));
      RecordedOutside(t.world.receipts, Receipt(c.id, c.episode, true, now));
    }
  }

  lemma RecordedOutside(receipts: seq<Receipt>, r: Receipt)
    ensures forall a, b :: !(a <= r.at <= b) ==>
              CountIn(PromotionTimes(Recorded(receipts, r)), a, b) == CountIn(PromotionTimes(receipts), a, b)
  {
    hide Settled;
    PromotionSnoc(receipts, r);
    forall a, b | !(a <= r.at <= b)
      ensures CountIn(PromotionTimes(Recorded(receipts, r)), a, b) == CountIn(PromotionTimes(receipts), a, b)
    {
      CountInSnoc(PromotionTimes(receipts), r.at, a, b);
    }
  }

  lemma {:induction false} TimesOf(receipts: seq<Receipt>, now: int)
    requires forall i :: 0 <= i < |receipts| ==> receipts[i].at <= now
    ensures forall i :: 0 <= i < |PromotionTimes(receipts)| ==> PromotionTimes(receipts)[i] <= now
  {
    if receipts != [] {
      TimesOf(receipts[..|receipts| - 1], now);
    }
  }

  /** The rolling bound survives a sweep that counted the last seven days first. */
  lemma RateAfter(before: World, w: World, perWeek: nat, now: int)
    requires RateKept(before, perWeek) && NoneAfter(w, now)
    requires PromotedSince(w.receipts, now - WEEK) <= perWeek
    requires forall a, b :: !(a <= now <= b) ==>
               CountIn(PromotionTimes(w.receipts), a, b) == CountIn(PromotionTimes(before.receipts), a, b)
    ensures RateKept(w, perWeek)
  {
    hide CountIn, PromotionTimes, PromotedSince;
    TimesOf(w.receipts, now);
    SinceIsCountIn(w.receipts, now - WEEK, now);
    forall a, b | b == a + WEEK ensures CountIn(PromotionTimes(w.receipts), a, b) <= perWeek {
      if a <= now <= b {
        NarrowerCountIn(PromotionTimes(w.receipts), now - WEEK, a, now);
      }
    }
  }

  lemma OpeningAllowance(w: World, perWeek: nat, now: int)
    requires RateKept(w, perWeek) && NoneAfter(w, now)
    ensures PromotedSince(w.receipts, now - WEEK) <= perWeek
  {
    SinceIsCountIn(w.receipts, now - WEEK, now);
    hide CountIn, PromotionTimes, PromotedSince;
  }

  lemma SweepKeeps(w: World, approved: seq<Candidate>, perWeek: nat, now: int, judge: Judge, writes: nat, seeded: nat)
    requires Kept(w, seeded) && NoneAfter(w, now) && DistinctIds(approved) && RateKept(w, perWeek)
    ensures var t := Swept(w, approved, perWeek, now, judge, writes);
            Kept(t, seeded) && NoneAfter(t, now) && RateKept(t, perWeek)
  {
    hide Kept, Settled, Unsettled, Episodes, PromotedSince, DistinctIds, RateKept, Drained;
    if perWeek > 0 {
      var batch, s := Unsettled(approved, w.receipts, PROMOTION_BATCH), Opening(w, perWeek, now, writes);
      SweepOpens(w, approved, perWeek, now, writes, seeded);
      assert batch + [] == batch;
      DrainKeeps(s, seeded, perWeek, now, batch, [], judge);
      OpeningAllowance(w, perWeek, now);
      DrainSpends(s, batch, now, judge);
      RateAfter(w, Drained(s, batch, now, judge).world, perWeek, now);
    }
  }

  // ---- Whole runs ----

  /** Sweep times never go back. */
  predicate Monotone(events: seq<Event>) {
    forall i, j :: 0 <= i < j < |events| && events[i].SweepAt? && events[j].SweepAt? ==> events[i].now <= events[j].now
  }

  predicate SweptBy(events: seq<Event>, t: int) {
    forall i :: 0 <= i < |events| && events[i].SweepAt? ==> events[i].now <= t
  }

  lemma StartKept(corpus: seq<Fixture>, perWeek: nat)
    ensures Kept(Start(corpus).world, |corpus|) && RateKept(Start(corpus).world, perWeek) && DistinctIds([])
    ensures forall t :: NoneAfter(Start(corpus).world, t)
  {
    assert AppendTimes(corpus[|corpus|..]) == [];
  }

  lemma ApproveKeeps(approved: seq<Candidate>, at: nat, c: Candidate)
    requires DistinctIds(approved) && at <= |approved| && Fresh(approved, c.id)
    ensures DistinctIds(approved[..at] + [c] + approved[at..])
  {
    var more := approved[..at] + [c] + approved[at..];
    forall i, j | 0 <= i < j < |more| ensures more[i].id != more[j].id {
      assert i < at ==> more[i] == approved[i];
      assert i > at ==> more[i] == approved[i - 1];
      assert j < at ==> more[j] == approved[j];
      assert j > at ==> more[j] == approved[j - 1];
    }
  }

  lemma {:induction false} RunKeeps(perWeek: nat, corpus: seq<Fixture>, events: seq<Event>)
    requires Monotone(events)
    ensures var s := Run(perWeek, Start(corpus), events);
            && Kept(s.world, |corpus|) && RateKept(s.world, perWeek) && DistinctIds(s.approved)
            && (forall t :: SweptBy(events, t) ==> NoneAfter(s.world, t))
    decreases |events|
  {
    hide Kept, RateKept, DistinctIds, Fresh, Swept;
    if events == [] {
      StartKept(corpus, perWeek);
    } else {
      var front, e := events[..|events| - 1], events[|events| - 1];
      assert forall i :: 0 <= i < |front| ==> front[i] == events[i];
      RunKeeps(perWeek, corpus, front);
      var s := Run(perWeek, Start(corpus), front);
      match e
      case Approve(at, c) =>
        if at <= |s.approved| && Fresh(s.approved, c.id) { ApproveKeeps(s.approved, at, c); }
        assert forall t :: SweptBy(events, t) ==> SweptBy(front, t);
      case SweepAt(now, judge, writes) =>
        assert SweptBy(front, now);
        SweepKeeps(s.world, s.approved, perWeek, now, judge, writes, |corpus|);
        assert forall t :: SweptBy(events, t) ==> now <= t;
    }
  }

  /** In every run of sweeps and crashes: no episode enters the corpus twice through
      the drain, every promoted receipt has its fixture, and in any seven days the
      receipts stay within the allowance and the appends within the allowance and
      one more for each sweep cut between its append and its receipt. */
  lemma PromotionIsSafe(perWeek: nat, corpus: seq<Fixture>, events: seq<Event>, a: int)
    requires Monotone(events)
    ensures var w := Run(perWeek, Start(corpus), events).world;
            && NoRepeats(w.corpus, |corpus|) && PromotedArePresent(w)
            && CountIn(PromotionTimes(w.receipts), a, a + WEEK) <= perWeek
            && CountIn(AppendTimes(w.corpus[|corpus|..]), a, a + WEEK) <= perWeek + CountIn(w.cut, a, a + WEEK)
            && CountIn(AppendTimes(w.corpus[|corpus|..]), a, a + WEEK)
               == CountIn(PromotionTimes(w.receipts), a, a + WEEK) + CountIn(w.cut, a, a + WEEK)
  {
    hide CountIn, AppendTimes, PromotionTimes, Run, NoRepeats, Episodes, Monotone;
    RunKeeps(perWeek, corpus, events);
    LongerCorpus(Run(perWeek, Start(corpus), events).world, |corpus|);
  }

  lemma {:induction false} DrainFront(s: Sweep, batch: seq<Candidate>, i: nat, now: int, judge: Judge, seeded: nat, perWeek: int)
    requires i < |batch| && SweepOk(s, seeded, perWeek, now, batch)
    ensures SweepOk(Drained(s, batch[..i], now, judge), seeded, perWeek, now, batch[i..])
  {
    assert batch == batch[..i] + batch[i..];
    DrainKeeps(s, seeded, perWeek, now, batch[..i], batch[i..], judge);
  }

  /** In every run, no quarantine receipt is written for an episode the corpus
      already replays at the moment of writing. */
  lemma NoQuarantineOfPresent(perWeek: nat, corpus: seq<Fixture>, events: seq<Event>, now: int, judge: Judge,
                              writes: nat, i: nat, r: Receipt)
    requires Monotone(events) && SweptBy(events, now)
    requires var s := Run(perWeek, Start(corpus), events);
             i < |Unsettled(s.approved, s.world.receipts, PROMOTION_BATCH)|
    requires var s := Run(perWeek, Start(corpus), events);
             var batch := Unsettled(s.approved, s.world.receipts, PROMOTION_BATCH);
             var t := Drained(Opening(s.world, perWeek, now, writes), batch[..i], now, judge);
             Visited(t, batch[i], now, judge).world.receipts == t.world.receipts + [r] && !r.promoted
    ensures var s := Run(perWeek, Start(corpus), events);
            var batch := Unsettled(s.approved, s.world.receipts, PROMOTION_BATCH);
            r.episode !in Episodes(Drained(Opening(s.world, perWeek, now, writes), batch[..i], now, judge).world.corpus)
  {
    hide Kept, Settled, Unsettled, Episodes, PromotedSince, DistinctIds, RateKept, Drained, Monotone, Run;
    RunKeeps(perWeek, corpus, events);
    var s := Run(perWeek, Start(corpus), events);
    var batch := Unsettled(s.approved, s.world.receipts, PROMOTION_BATCH);
    SweepOpens(s.world, s.approved, perWeek, now, writes, |corpus|);
    DrainFront(Opening(s.world, perWeek, now, writes), batch, i, now, judge, |corpus|, perWeek);
    var t := Drained(Opening(s.world, perWeek, now, writes), batch[..i], now, judge);
    var last := Visited(t, batch[i], now, judge).world.receipts;
    assert last[|last| - 1] == r;
  }

  // ---- The receipt that is never written ----

  lemma {:induction false} DrainSkips(s: Sweep, batch: seq<Candidate>, c: Candidate, now: int, judge: Judge)
    requires c.episode in s.present && forall x :: x in batch && x.id == c.id ==> x.episode == c.episode
    ensures c.episode in Drained(s, batch, now, judge).present
    ensures c.episode in Episodes(s.world.corpus) ==> c.episode in Episodes(Drained(s, batch, now, judge).world.corpus)
    ensures Settled(Drained(s, batch, now, judge).world.receipts, c.id) == Settled(s.world.receipts, c.id)
  {
    hide Settled;
    if batch != [] {
      var front, x := batch[..|batch| - 1], batch[|batch| - 1];
      DrainSkips(s, front, c, now, judge);
      var t := Drained(s, front, now, judge);
      assert x in batch;
      SettledSnoc(t.world.receipts, Receipt(x.id, x.episode, false, now));
      SettledSnoc(t.world.receipts, Receipt(x.id, x.episode, true, now));
      StillThere(t.world.corpus, Fixture(x.episode, now), c.episode);
    }
  }

  lemma StillThere(corpus: seq<Fixture>, f: Fixture, episode: string)
    ensures episode in Episodes(corpus) ==> episode in Episodes(corpus + [f])
  {
    if episode in Episodes(corpus) {
      var i :| 0 <= i < |corpus| && corpus[i].episode == episode;
      assert (corpus + [f])[i] == corpus[i];
    }
  }

  /** The candidate, its episode in the corpus, no receipt. */
  ghost predicate Unreceipted(s: State, c: Candidate) {
    && c in s.approved && DistinctIds(s.approved)
    && c.episode in Episodes(s.world.corpus) && !Settled(s.world.receipts, c.id)
  }

  lemma UnreceiptedStays(perWeek: int, s: State, c: Candidate, e: Event)
    requires Unreceipted(s, c)
    ensures Unreceipted(Next(perWeek, s, e), c)
  {
    hide Settled, Episodes, Unsettled, PromotedSince, Drained;
    match e
    case Approve(at, x) =>
      if at <= |s.approved| && Fresh(s.approved, x.id) {
        ApproveKeeps(s.approved, at, x);
        var more := s.approved[..at] + [x] + s.approved[at..];
        var i :| 0 <= i < |s.approved| && s.approved[i] == c;
        assert more[if i < at then i else i + 1] == c;
      }
    case SweepAt(now, judge, writes) =>
      var batch := Unsettled(s.approved, s.world.receipts, PROMOTION_BATCH);
      BatchOk(s.approved, s.world.receipts);
      forall x | x in batch && x.id == c.id ensures x.episode == c.episode {
        var i :| 0 <= i < |batch| && batch[i] == x;
        assert x in s.approved;
      }
      DrainSkips(Opening(s.world, perWeek, now, writes), batch, c, now, judge);
  }

  /** A sweep cut between the append and the receipt leaves a candidate that no later
      sweep ever answers for: its episode is in the corpus, so it is skipped before
      anything is written. */
  lemma {:induction false} CutCandidateIsNeverReceipted(perWeek: int, s: State, c: Candidate, events: seq<Event>)
    requires Unreceipted(s, c)
    ensures Unreceipted(Run(perWeek, s, events), c)
    decreases |events|
  {
    hide Unreceipted, Next;
    if events != [] {
      CutCandidateIsNeverReceipted(perWeek, s, c, events[..|events| - 1]);
      UnreceiptedStays(perWeek, Run(perWeek, s, events[..|events| - 1]), c, events[|events| - 1]);
    }
  }

  /** Such a candidate is exactly what a cut leaves behind. */
  lemma CutLeavesUnreceipted(s: Sweep, c: Candidate, now: int, judge: Judge, approved: seq<Candidate>)
    requires !s.dead && s.remaining > 0 && c.episode !in s.present && s.writes == 1 && judge(c, s.world.corpus)
    requires c in approved && DistinctIds(approved) && !Settled(s.world.receipts, c.id)
    ensures Unreceipted(State(Visited(s, c, now, judge).world, approved), c)
  {
    hide Settled, DistinctIds;
    var more := s.world.corpus + [Fixture(c.episode, now)];
    assert more[|s.world.corpus|].episode == c.episode;
  }

  // ---- The sweep that can do nothing ----

  predicate AllPresent(batch: seq<Candidate>, corpus: seq<Fixture>) {
    forall i :: 0 <= i < |batch| ==> batch[i].episode in Episodes(corpus)
  }

  lemma {:induction false} PresentIdle(s: Sweep, batch: seq<Candidate>, now: int, judge: Judge)
    requires forall i :: 0 <= i < |batch| ==> batch[i].episode in s.present
    ensures Drained(s, batch, now, judge) == s
  {
    if batch != [] {
      PresentIdle(s, batch[..|batch| - 1], now, judge);
    }
  }

  lemma {:induction false} DrainGrows(s: Sweep, batch: seq<Candidate>, now: int, judge: Judge)
    ensures var t := Drained(s, batch, now, judge).world;
            |s.world.corpus| <= |t.corpus| && |s.world.receipts| <= |t.receipts|
  {
    hide Settled;
    if batch != [] {
      DrainGrows(s, batch[..|batch| - 1], now, judge);
    }
  }

  lemma VisitMoves(s: Sweep, c: Candidate, now: int, judge: Judge)
    requires !s.dead && s.remaining > 0 && c.episode !in s.present && s.writes >= 2
    requires !Settled(s.world.receipts, c.id)
    ensures var t := Visited(s, c, now, judge).world;
            |t.corpus| + |t.receipts| > |s.world.corpus| + |s.world.receipts|
  {
    hide Settled;
  }

  /** A sweep with allowance left that lives to finish its first promotion changes
      something exactly when some candidate of its batch is not in the corpus yet. */
  lemma SweepIsIdleExactly(w: World, approved: seq<Candidate>, perWeek: int, now: int, judge: Judge, writes: nat)
    requires PromotedSince(w.receipts, now - WEEK) < perWeek && writes >= 2 && DistinctIds(approved)
    ensures Swept(w, approved, perWeek, now, judge, writes) == w
       <==> AllPresent(Unsettled(approved, w.receipts, PROMOTION_BATCH), w.corpus)
  {
    hide Visited, Settled, Unsettled, PromotedSince, Episodes, Drained, DistinctIds;
    var batch, s := Unsettled(approved, w.receipts, PROMOTION_BATCH), Opening(w, perWeek, now, writes);
    BatchOk(approved, w.receipts);
    if AllPresent(batch, w.corpus) {
      PresentIdle(s, batch, now, judge);
    } else {
      var i := FirstAbsent(batch, s.present);
      PresentIdle(s, batch[..i], now, judge);
      DrainedNext(s, batch, i, now, judge);
      VisitMoves(s, batch[i], now, judge);
      var t := Drained(s, batch[..i + 1], now, judge);
      DrainedConcat(s, batch[..i + 1], batch[i + 1..], now, judge);
      assert batch == batch[..i + 1] + batch[i + 1..];
      DrainGrows(t, batch[i + 1..], now, judge);
    }
  }

  lemma {:induction false} FirstAbsent(batch: seq<Candidate>, present: set<string>) returns (i: nat)
    requires exists k :: 0 <= k < |batch| && batch[k].episode !in present
    ensures i < |batch| && batch[i].episode !in present
    ensures forall k :: 0 <= k < i ==> batch[k].episode in present
  {
    var front := batch[..|batch| - 1];
    if k :| 0 <= k < |front| && front[k].episode !in present {
      i := FirstAbsent(front, present);
      assert forall k :: 0 <= k < i ==> batch[k] == front[k];
    } else {
      i := |batch| - 1;
      assert forall k :: 0 <= k < |front| ==> front[k] == batch[k];
    }
  }

  /** A full batch of candidates already in the corpus starves the queue behind it. */
  ghost predicate Starved(s: State) {
    var all := AllUnsettled(s.approved, s.world.receipts);
    |all| >= PROMOTION_BATCH && AllPresent(all[..PROMOTION_BATCH], s.world.corpus)
  }

  lemma StarvedStep(perWeek: int, s: State, e: Event)
    requires Starved(s) && (e.Approve? ==> e.at == |s.approved|)
    ensures Starved(Next(perWeek, s, e)) && Next(perWeek, s, e).world == s.world
  {
    hide Settled, PromotedSince, Episodes, Drained;
    match e
    case Approve(at, c) =>
      var more := s.approved[..at] + [c] + s.approved[at..];
      assert more == s.approved + [c] && more[..|s.approved|] == s.approved;
    case SweepAt(now, judge, writes) =>
      var batch := Unsettled(s.approved, s.world.receipts, PROMOTION_BATCH);
      PresentIdle(Opening(s.world, perWeek, now, writes), batch, now, judge);
  }

  /** Approvals come at the end of the queue. */
  predicate ComeLast(perWeek: int, s: State, events: seq<Event>) {
    events == []
    || (ComeLast(perWeek, s, events[..|events| - 1])
        && (events[|events| - 1].Approve? ==>
              events[|events| - 1].at == |Run(perWeek, s, events[..|events| - 1]).approved|))
  }

  lemma {:induction false} StarvedForever(perWeek: int, s: State, events: seq<Event>)
    requires Starved(s) && ComeLast(perWeek, s, events)
    ensures Run(perWeek, s, events).world == s.world && Starved(Run(perWeek, s, events))
    decreases |events|
  {
    hide Starved, Next;
    if events != [] {
      StarvedForever(perWeek, s, events[..|events| - 1]);
      StarvedStep(perWeek, Run(perWeek, s, events[..|events| - 1]), events[|events| - 1]);
    }
  }

  // ---- A run that gets there ----

  /** Candidates approved one after the other, each promoted by a sweep that dies
      between the append and the receipt. */
  function CutWorld(cs: seq<Candidate>): World {
    World(seq(|cs|, i requires 0 <= i < |cs| => Fixture(cs[i].episode, i)), [], seq(|cs|, i => i))
  }

  predicate Apart(cs: seq<Candidate>) {
    forall i, j :: 0 <= i < j < |cs| ==> cs[i].id != cs[j].id && cs[i].episode != cs[j].episode
  }

  lemma {:induction false} AllUnreceipted(cs: seq<Candidate>)
    ensures AllUnsettled(cs, []) == cs
  {
    if cs != [] {
      AllUnreceipted(cs[..|cs| - 1]);
    }
  }

  lemma CutEpisodes(cs: seq<Candidate>)
    ensures forall e :: e in Episodes(CutWorld(cs).corpus) <==> exists i :: 0 <= i < |cs| && cs[i].episode == e
  {
    var corpus := CutWorld(cs).corpus;
    forall e | exists i :: 0 <= i < |cs| && cs[i].episode == e ensures e in Episodes(corpus) {
      var i :| 0 <= i < |cs| && cs[i].episode == e;
      assert corpus[i].episode == e;
    }
  }

  lemma CutSnoc(cs: seq<Candidate>, c: Candidate)
    ensures CutWorld(cs + [c])
         == World(CutWorld(cs).corpus + [Fixture(c.episode, |cs|)], [], CutWorld(cs).cut + [|cs|])
  {
    var more := cs + [c];
    assert more[|cs|] == c && forall i :: 0 <= i < |cs| ==> more[i] == cs[i];
    assert CutWorld(more).corpus == CutWorld(cs).corpus + [Fixture(c.episode, |cs|)];
    assert CutWorld(more).cut == CutWorld(cs).cut + [|cs|];
  }

  lemma NewEpisode(cs: seq<Candidate>, c: Candidate)
    requires Apart(cs + [c])
    ensures c.episode !in Episodes(CutWorld(cs).corpus)
    ensures forall i :: 0 <= i < |cs| ==> cs[i].episode in Episodes(CutWorld(cs).corpus)
  {
    CutEpisodes(cs);
    hide Episodes;
    forall i | 0 <= i < |cs| ensures cs[i].episode != c.episode {
      assert (cs + [c])[i] == cs[i] && (cs + [c])[|cs|] == c;
    }
  }

  /** One approval and one cut sweep. */
  lemma CutSweep(perWeek: int, cs: seq<Candidate>, c: Candidate, judge: Judge)
    requires perWeek > 0 && |cs| < PROMOTION_BATCH && Apart(cs + [c]) && (forall x, f :: judge(x, f))
    ensures Swept(CutWorld(cs), cs + [c], perWeek, |cs|, judge, 1) == CutWorld(cs + [c])
  {
    hide Episodes, AllUnsettled, Settled, Apart, CutWorld;
    var w, now := CutWorld(cs), |cs|;
    var s := Opening(w, perWeek, now, 1);
    NoReceipts(cs);
    AllUnreceipted(cs + [c]);
    NewEpisode(cs, c);
    assert (cs + [c])[..|cs|] == cs && (cs + [c])[|cs|] == c;
    PresentIdle(s, cs, now, judge);
    assert Drained(s, cs + [c], now, judge) == Visited(s, c, now, judge);
    CutSnoc(cs, c);
  }

  lemma NoReceipts(cs: seq<Candidate>)
    ensures CutWorld(cs).receipts == []
  {
  }

  /** From nothing at all, fifty candidates and fifty crashes starve the drain for good. */
  lemma {:induction false} FiftyCutsStarve(perWeek: int, cs: seq<Candidate>, judge: Judge) returns (events: seq<Event>)
    requires perWeek > 0 && |cs| <= PROMOTION_BATCH && Apart(cs) && (forall x, f :: judge(x, f))
    ensures Run(perWeek, Start([]), events) == State(CutWorld(cs), cs)
    ensures Monotone(events) && SweptBy(events, |cs|)
    ensures |cs| == PROMOTION_BATCH ==> Starved(Run(perWeek, Start([]), events))
  {
    hide Swept, Apart, Settled, Episodes;
    if cs == [] {
      events := [];
      assert CutWorld([]) == World([], [], []);
    } else {
      var n := |cs| - 1;
      var front, c := cs[..n], cs[n];
      assert front + [c] == cs;
      Earlier(cs);
      var before := FiftyCutsStarve(perWeek, front, judge);
      assert Fresh(front, c.id) by { LastIsFresh(cs); }
      assert front[..n] + [c] + front[n..] == cs;
      var approve, sweep := Approve(n, c), SweepAt(n, judge, 1);
      events := before + [approve] + [sweep];
      assert (before + [approve])[..|before|] == before && events[..|before| + 1] == before + [approve];
      CutSweep(perWeek, front, c, judge);
      AllUnreceipted(cs);
      CutEpisodes(cs);
    }
  }

  lemma Earlier(cs: seq<Candidate>)
    requires Apart(cs) && cs != []
    ensures Apart(cs[..|cs| - 1])
  {
  }

  lemma LastIsFresh(cs: seq<Candidate>)
    requires Apart(cs) && cs != []
    ensures Fresh(cs[..|cs| - 1], cs[|cs| - 1].id)
  {
  }
}
