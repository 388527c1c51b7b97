/** The drain that writes kept corrections into the regression corpus, one sweep at
    a time, with a process that may die after any durable write
    (internal/app/fixture_promotion.go, internal/store/fixturepromotionstore). */
module FixturePromotion {
  import opened Text

  const WEEK := 7 * 24 * 3600
  const PROMOTION_BATCH := 50

  datatype Candidate = Candidate(id: string, episode: string)

  /** A line of the corpus: the episode it replays, and when it was appended. */
  datatype Fixture = Fixture(episode: string, at: int)

  datatype Receipt = Receipt(candidate: string, episode: string, promoted: bool, at: int)

  /** What survives a crash. cut is history: the sweeps that died between an append
      and its receipt. */
  datatype World = World(corpus: seq<Fixture>, receipts: seq<Receipt>, cut: seq<int>)

  /** Does the fixture build, encode and keep the corpus parsing? */
  type Judge = (Candidate, seq<Fixture>) -> bool

  function Episodes(corpus: seq<Fixture>): set<string> {
    set i | 0 <= i < |corpus| :: corpus[i].episode
  }

  predicate Settled(receipts: seq<Receipt>, id: string) {
    exists i :: 0 <= i < |receipts| && receipts[i].candidate == id
  }

  /** PromotedSince: promotions, not quarantines. */
  function PromotedSince(receipts: seq<Receipt>, since: int): nat {
    if receipts == [] then 0
    else
      var last := receipts[|receipts| - 1];
      PromotedSince(receipts[..|receipts| - 1], since) + if last.promoted && last.at >= since then 1 else 0
  }

  /** Every approved candidate nothing has answered for, oldest first. */
  function AllUnsettled(approved: seq<Candidate>, receipts: seq<Receipt>): seq<Candidate> {
    if approved == [] then []
    else
      var last := approved[|approved| - 1];
      AllUnsettled(approved[..|approved| - 1], receipts) + if Settled(receipts, last.id) then [] else [last]
  }

  function Unsettled(approved: seq<Candidate>, receipts: seq<Receipt>, limit: nat): seq<Candidate> {
    var all := AllUnsettled(approved, receipts);
    if |all| <= limit then all else all[..limit]
  }

  /** A sweep under way: what is durable, the episodes known present, the week's
      remaining allowance, how many writes the process will live to make. */
  datatype Sweep = Sweep(world: World, present: set<string>, remaining: int, writes: nat, dead: bool)

  /** Record: the receipt insert does nothing when the candidate has one. */
  function Recorded(receipts: seq<Receipt>, r: Receipt): seq<Receipt> {
    if Settled(receipts, r.candidate) then receipts else receipts + [r]
  }

  /** One candidate of the batch. */
  function Visited(s: Sweep, c: Candidate, now: int, judge: Judge): Sweep {
    if s.dead || s.remaining <= 0 || c.episode in s.present then s
    else if s.writes == 0 then s.(dead := true)
    else if !judge(c, s.world.corpus) then
      s.(writes := s.writes - 1,
         world := s.world.(receipts := Recorded(s.world.receipts, Receipt(c.id, c.episode, false, now))))
    else
      var appended := s.world.(corpus := s.world.corpus + [Fixture(c.episode, now)]);
      if s.writes == 1 then
        s.(dead := true, writes := 0, world := appended.(cut := appended.cut + [now]))
      else
        Sweep(appended.(receipts := Recorded(appended.receipts, Receipt(c.id, c.episode, true, now))),
              s.present + {c.episode}, s.remaining - 1, s.writes - 2, false)
  }

  function Drained(s: Sweep, batch: seq<Candidate>, now: int, judge: Judge): Sweep {
    if batch == [] then s
    else Visited(Drained(s, batch[..|batch| - 1], now, judge), batch[|batch| - 1], now, judge)
  }

  function Opening(w: World, perWeek: int, now: int, writes: nat): Sweep {
    Sweep(w, Episodes(w.corpus), perWeek - PromotedSince(w.receipts, now - WEEK), writes, false)
  }

  /** PromoteApprovedFixtures */
  function Swept(w: World, approved: seq<Candidate>, perWeek: int, now: int, judge: Judge, writes: nat): World {
    if perWeek <= 0 then w
    else Drained(Opening(w, perWeek, now, writes), Unsettled(approved, w.receipts, PROMOTION_BATCH), now, judge).world
  }

  class Promoter {
    var corpus: seq<Fixture>
    var receipts: seq<Receipt>
    ghost var cut: seq<int>
    const perWeek: int

    constructor (corpus: seq<Fixture>, perWeek: int)
      ensures View() == World(corpus, [], []) && this.perWeek == perWeek
    {
      this.corpus, receipts, cut, this.perWeek := corpus, [], [], perWeek;
    }

    ghost function View(): World
      reads this
    {
      World(corpus, receipts, cut)
    }

    method CountPromotedSince(since: int) returns (count: nat)
      ensures count == PromotedSince(receipts, since)
    {
      count := 0;
      for i := 0 to |receipts|
        invariant count == PromotedSince(receipts[..i], since)
      {
        assert receipts[..i + 1][..i] == receipts[..i];
        if receipts[i].promoted && receipts[i].at >= since { count := count + 1; }
      }
      assert receipts[..|receipts|] == receipts;
    }

    method ListUnsettled(approved: seq<Candidate>, limit: nat) returns (batch: seq<Candidate>)
      ensures batch == Unsettled(approved, receipts, limit)
    {
      batch := [];
      for i := 0 to |approved|
        invariant batch == AllUnsettled(approved[..i], receipts)
      {
        assert approved[..i + 1][..i] == approved[..i];
        if !Settled(receipts, approved[i].id) { batch := batch + [approved[i]]; }
      }
      assert approved[..|approved|] == approved;
      if |batch| > limit { batch := batch[..limit]; }
    }

    /** promoteOne and quarantine: the append before the receipt, each of them the
        last write of the process when no more are granted. */
    method PromoteOne(c: Candidate, now: int, judge: Judge, granted: nat, ghost s: Sweep)
      returns (promoted: bool, alive: bool, writes: nat)
      requires !s.dead && s.remaining > 0 && c.episode !in s.present && s.world == View() && s.writes == granted
      modifies this
      ensures var t := Visited(s, c, now, judge);
              && View() == t.world && alive == !t.dead && (alive ==> writes == t.writes)
              && t.remaining == s.remaining - (if promoted then 1 else 0)
              && t.present == s.present + (if promoted then {c.episode} else {})
    {
      promoted, alive, writes := false, true, granted;
      if writes == 0 { return false, false, 0; }
      if !judge(c, corpus) {
        if !Settled(receipts, c.id) { receipts := receipts + [Receipt(c.id, c.episode, false, now)]; }
        return false, true, writes - 1;
      }
      corpus := corpus + [Fixture(c.episode, now)];
      if writes == 1 {
        cut := cut + [now];
        return false, false, 0;
      }
      if !Settled(receipts, c.id) { receipts := receipts + [Receipt(c.id, c.episode, true, now)]; }
      return true, true, writes - 2;
    }

    method PromoteApprovedFixtures(approved: seq<Candidate>, now: int, judge: Judge, granted: nat) returns (ok: bool)
      modifies this
      ensures View() == Swept(old(View()), approved, perWeek, now, judge, granted)
    {
      hide Visited, Settled, PromotedSince, Unsettled, Episodes, Drained;
      if perWeek <= 0 { return true; }
      var spent := CountPromotedSince(now - WEEK);
      var remaining := perWeek - spent;
      var batch := ListUnsettled(approved, PROMOTION_BATCH);
      var present, writes := Episodes(corpus), granted;
      ghost var first := Opening(View(), perWeek, now, granted);
      if remaining <= 0 {
        NothingRemains(first, batch, now, judge);
        return true;
      }
      DrainedStart(first, now, judge);
      for i := 0 to |batch|
        invariant Drained(first, batch[..i], now, judge) == Sweep(View(), present, remaining, writes, false)
      {
        ghost var s := Drained(first, batch[..i], now, judge);
        DrainedNext(first, batch, i, now, judge);
        if remaining <= 0 {
          StopsEarly(first, batch, i, now, judge);
          return true;
        }
        if batch[i].episode in present {
          SkipsPresent(s, batch[i], now, judge);
          continue;
        }
        var promoted, alive, left := PromoteOne(batch[i], now, judge, writes, s);
        if !alive {
          StopsEarly(first, batch, i + 1, now, judge);
          return false;
        }
        writes := left;
        if promoted {
          present := present + {batch[i].episode};
          remaining := remaining - 1;
        }
      }
      assert batch[..|batch|] == batch;
      return true;
    }
  }

  lemma DrainedStart(s: Sweep, now: int, judge: Judge)
    ensures Drained(s, [], now, judge) == s
  {
  }

  lemma DrainedNext(s: Sweep, batch: seq<Candidate>, i: nat, now: int, judge: Judge)
    requires i < |batch|
    ensures Drained(s, batch[..i + 1], now, judge) == Visited(Drained(s, batch[..i], now, judge), batch[i], now, judge)
  {
    hide Visited;
    assert batch[..i + 1][..i] == batch[..i];
  }

  lemma StopsEarly(s: Sweep, batch: seq<Candidate>, i: nat, now: int, judge: Judge)
    requires i <= |batch|
    requires Drained(s, batch[..i], now, judge).dead || Drained(s, batch[..i], now, judge).remaining <= 0
    ensures Drained(s, batch, now, judge) == Drained(s, batch[..i], now, judge)
  {
    hide Visited;
    NothingRemains(Drained(s, batch[..i], now, judge), batch[i..], now, judge);
    DrainedConcat(s, batch[..i], batch[i..], now, judge);
    assert batch == batch[..i] + batch[i..];
  }

  lemma SkipsPresent(s: Sweep, c: Candidate, now: int, judge: Judge)
    requires c.episode in s.present
    ensures Visited(s, c, now, judge) == s
  {
  }

  lemma {:induction false} NothingRemains(s: Sweep, batch: seq<Candidate>, now: int, judge: Judge)
    requires s.dead || s.remaining <= 0
    ensures Drained(s, batch, now, judge) == s
  {
    if batch != [] {
      NothingRemains(s, batch[..|batch| - 1], now, judge);
    }
  }

  lemma {:induction false} DrainedConcat(s: Sweep, a: seq<Candidate>, b: seq<Candidate>, now: int, judge: Judge)
    ensures Drained(s, a + b, now, judge) == Drained(Drained(s, a, now, judge), b, now, judge)
    decreases |b|
  {
    hide Visited;
    if b == [] {
      assert a + b == a;
    } else {
      assert (a + b)[..|a + b| - 1] == a + b[..|b| - 1];
      DrainedConcat(s, a, b[..|b| - 1], now, judge);
    }
  }
}
