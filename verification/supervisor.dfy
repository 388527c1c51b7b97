/** The kernels of the Coop supervisor: the bounded tail of a process's output, the
    capped restart backoff and the image repair gate
    (internal/app/coop_supervisor.go). */
module Supervisor {
  import opened Bytes
  import opened Counting
  import opened Options

  // ---- The tail buffer ----

  const STARTUP_OUTPUT_LIMIT := 16384

  /** The last n elements, or all of them. */
  function Last<T>(s: seq<T>, n: nat): seq<T> {
    if |s| <= n then s else s[|s| - n..]
  }

  /** Keeping only the tail of what came before loses nothing of the tail. */
  lemma LastOfTail<T>(s: seq<T>, p: seq<T>, n: nat)
    ensures Last(Last(s, n) + p, n) == Last(s + p, n)
  {
  }

  /** The tail is the end of what it is the tail of, and no shorter than it has to be. */
  lemma TailIsTheEnd<T>(s: seq<T>, n: nat)
    ensures |Last(s, n)| == Least(|s|, n)
    ensures s == s[..|s| - |Last(s, n)|] + Last(s, n)
  {
  }

  lemma LastIsNew<T>(s: seq<T>, p: seq<T>, n: nat)
    requires |p| >= n
    ensures Last(s + p, n) == p[|p| - n..]
  {
  }

  lemma LastKeeps<T>(s: seq<T>, kept: seq<T>, p: seq<T>, n: nat)
    requires |p| <= n && kept == if |s| + |p| <= n then s else s[|s| + |p| - n..]
    ensures Last(s + p, n) == kept + p
  {
  }

  function Flattened<T>(chunks: seq<seq<T>>): seq<T> {
    if chunks == [] then [] else Flattened(chunks[..|chunks| - 1]) + chunks[|chunks| - 1]
  }

  /** What the buffer holds after writing chunk by chunk. */
  function TailOf<T>(chunks: seq<seq<T>>, n: nat): seq<T> {
    if chunks == [] then [] else Last(TailOf(chunks[..|chunks| - 1], n) + chunks[|chunks| - 1], n)
  }

  /** Nothing of how the output was cut into writes shows in the tail. */
  lemma {:induction false} TailIgnoresChunking<T>(chunks: seq<seq<T>>, n: nat)
    ensures TailOf(chunks, n) == Last(Flattened(chunks), n)
  {
    if chunks != [] {
      var front := chunks[..|chunks| - 1];
      TailIgnoresChunking(front, n);
      LastOfTail(Flattened(front), chunks[|chunks| - 1], n);
    }
  }

  /** coopProcessOutput: the slice is the first size bytes of the buffer. */
  class ProcessOutput {
    const tail: array<Byte>
    var size: nat
    ghost var written: seq<Byte>

    ghost predicate Valid()
      reads this, tail
    {
      && size <= tail.Length == STARTUP_OUTPUT_LIMIT
      && tail[..size] == Last(written, STARTUP_OUTPUT_LIMIT)
    }

    constructor ()
      ensures Valid() && fresh(tail) && written == []
    {
      tail := new Byte[STARTUP_OUTPUT_LIMIT];
      size, written := 0, [];
    }

    /** copy(tail[to:], p) */
    method Put(to: nat, p: seq<Byte>)
      requires to + |p| <= tail.Length
      modifies tail
      ensures tail[..to + |p|] == old(tail[..to]) + p
    {
      for i := 0 to |p|
        invariant tail[..to + i] == old(tail[..to]) + p[..i]
      {
        tail[to + i] := p[i];
        assert tail[..to + i + 1] == tail[..to + i] + [p[i]];
      }
      assert p[..|p|] == p;
    }

    /** copy(tail, tail[overflow:]) over the bytes held. */
    method Shift(overflow: nat)
      requires overflow <= size <= tail.Length
      modifies tail
      ensures tail[..size - overflow] == old(tail[overflow..size])
    {
      for i := 0 to size - overflow
        invariant tail[..i] == old(tail[overflow..overflow + i])
        invariant tail[i..] == old(tail[i..])
      {
        assert tail[overflow + i] == tail[i..][overflow];
        tail[i] := tail[overflow + i];
      }
    }

    method Write(p: seq<Byte>)
      requires Valid()
      modifies this`size, this`written, tail
      ensures Valid() && written == old(written) + p
      ensures tail[..size] == Last(old(tail[..size]) + p, STARTUP_OUTPUT_LIMIT)
    {
      hide Last;
      ghost var held, limit := tail[..size], STARTUP_OUTPUT_LIMIT;
      LastOfTail(written, p, limit);
      written := written + p;
      if |p| >= STARTUP_OUTPUT_LIMIT {
        LastIsNew(held, p, limit);
        Put(0, p[|p| - STARTUP_OUTPUT_LIMIT..]);
        size := STARTUP_OUTPUT_LIMIT;
      } else {
        ghost var kept := if |held| + |p| <= limit then held else held[|held| + |p| - limit..];
        LastKeeps(held, kept, p, limit);
        if size + |p| > STARTUP_OUTPUT_LIMIT {
          var overflow := size + |p| - STARTUP_OUTPUT_LIMIT;
          assert tail[overflow..size] == kept;
          Shift(overflow);
          size := size - overflow;
        }
        Put(size, p);
        size := size + |p|;
      }
    }
  }

  // ---- The restart backoff ----

  const SECOND := 1_000_000_000
  const FIVE_MINUTES := 300 * SECOND

  function Pow2(n: nat): (r: nat)
    ensures r >= 1
  {
    if n == 0 then 1 else 2 * Pow2(n - 1)
  }

  function Backoff(base: int, failures: int): int {
    var b := if base <= 0 then SECOND else base;
    Least(b * Pow2(if failures < 1 then 0 else failures - 1), FIVE_MINUTES)
  }

  lemma {:induction false} Pow2Grows(m: nat, n: nat)
    requires m <= n
    ensures Pow2(m) <= Pow2(n)
    decreases n
  {
    if m < n {
      Pow2Grows(m, n - 1);
    }
  }

  lemma ScaledGrows(b: int, m: nat, n: nat)
    requires b >= 0 && m <= n
    ensures b * Pow2(m) <= b * Pow2(n)
  {
    Pow2Grows(m, n);
  }

  /** The first failure waits the configured time, a second without one; each further
      failure waits twice as long, up to five minutes. */
  lemma BackoffDoubles(base: int, n: nat)
    ensures Backoff(base, 1) == Least(if base <= 0 then 1_000_000_000 else base, 300_000_000_000)
    ensures n >= 1 ==> Backoff(base, n + 1) == Least(2 * Backoff(base, n), 300_000_000_000)
  {
    var b := if base <= 0 then SECOND else base;
    assert Pow2(0) == 1;
    if n >= 1 {
      Redoubled(b, n - 1);
    }
  }

  lemma Redoubled(b: int, n: nat)
    ensures b * Pow2(n + 1) == 2 * (b * Pow2(n))
  {
    var x := Pow2(n);
    assert Pow2(n + 1) == 2 * x;
    hide Pow2;
    assert b * (2 * x) == 2 * (b * x);
  }

  /** The doubling loop stops early, at the cap, and never multiplies past it. */
  method RestartBackoff(base: int, failures: int) returns (delay: int)
    ensures delay == Backoff(base, failures)
    ensures 0 < delay <= FIVE_MINUTES
  {
    assert Pow2(0) == 1;
    hide Pow2;
    var b, n := base, failures;
    if b <= 0 { b := SECOND; }
    if n < 1 { n := 1; }
    delay := b;
    var attempt := 1;
    while attempt < n && delay < FIVE_MINUTES
      invariant 1 <= attempt <= n
      invariant delay == b * Pow2(attempt - 1) > 0
      decreases n - attempt
    {
      ScaledGrows(b, attempt, n - 1);
      Redoubled(b, attempt - 1);
      if delay > FIVE_MINUTES / 2 { return FIVE_MINUTES; }
      delay := delay * 2;
      attempt := attempt + 1;
    }
    ScaledGrows(b, attempt - 1, n - 1);
    if delay > FIVE_MINUTES { return FIVE_MINUTES; }
  }

  // ---- The repair gate ----

  datatype Setup = Setup(base: int, canRepair: bool, canPrune: bool)

  datatype Gate = Gate(failures: nat, next: Option<int>, pruned: bool, lastErr: Option<string>)

  const FRESH_GATE := Gate(0, None, false, None)

  /** One call of Repair: when it comes, and what its prune and build would say. */
  datatype Attempt = Attempt(cancelled: bool, now: int, prune: Option<string>, build: Option<string>)

  datatype Outcome = Cancelled | Waiting(until: int, after: Option<string>) | Unavailable | Built | Failed(error: string)

  predicate Refused(c: Setup, g: Gate, a: Attempt) {
    a.cancelled || (g.next.Some? && a.now < g.next.value) || !c.canRepair
  }

  predicate Prunes(c: Setup, g: Gate) {
    g.failures >= 2 && !g.pruned && c.canPrune
  }

  function Repaired(c: Setup, g: Gate, a: Attempt): Gate {
    if Refused(c, g, a) then g
    else if a.build.None? then FRESH_GATE
    else
      Gate(g.failures + 1, Some(a.now + Backoff(c.base, g.failures + 1)), g.pruned || Prunes(c, g), a.build)
  }

  function Answer(c: Setup, g: Gate, a: Attempt): Outcome {
    if a.cancelled then Cancelled
    else if g.next.Some? && a.now < g.next.value then Waiting(g.next.value, g.lastErr)
    else if !c.canRepair then Unavailable
    else if a.build.None? then Built
    else Failed(a.build.value)
  }

  class RepairGate {
    const setup: Setup
    var failures: nat
    var next: Option<int>
    var pruned: bool
    var lastErr: Option<string>

    constructor (setup: Setup)
      ensures View() == FRESH_GATE && this.setup == setup
    {
      this.setup, failures, next, pruned, lastErr := setup, 0, None, false, None;
    }

    function View(): Gate
      reads this
    {
      Gate(failures, next, pruned, lastErr)
    }

    method Repair(a: Attempt) returns (outcome: Outcome)
      modifies this
      ensures View() == Repaired(setup, old(View()), a)
      ensures outcome == Answer(setup, old(View()), a)
    {
      hide Backoff;
      if a.cancelled { return Cancelled; }
      if next.Some? && a.now < next.value { return Waiting(next.value, lastErr); }
      if !setup.canRepair { return Unavailable; }
      if failures >= 2 && !pruned && setup.canPrune {
        pruned := true;
        if a.prune.Some? { lastErr := a.prune; }
      }
      if a.build.Some? {
        failures := failures + 1;
        lastErr := a.build;
        var delay := RestartBackoff(setup.base, failures);
        next := Some(a.now + delay);
        return Failed(a.build.value);
      }
      failures, pruned, next, lastErr := 0, false, None, None;
      return Built;
    }

    method FailureStreak() returns (count: nat, error: Option<string>)
      ensures count == failures && error == lastErr
    {
      return failures, lastErr;
    }
  }

  // ---- The gate over whole runs ----

  /** A build that ran: when, its error, and whether a prune ran before it. */
  datatype Build = Build(at: int, error: Option<string>, pruned: bool)

  datatype Log = Log(gate: Gate, builds: seq<Build>)

  function Run(c: Setup, calls: seq<Attempt>): Log {
    if calls == [] then Log(FRESH_GATE, [])
    else
      var before, a := Run(c, calls[..|calls| - 1]), calls[|calls| - 1];
      Log(Repaired(c, before.gate, a),
          if Refused(c, before.gate, a) then before.builds
          else before.builds + [Build(a.now, a.build, Prunes(c, before.gate))])
  }

  /** The failed builds since the last one that succeeded. */
  function Streak(builds: seq<Build>): nat {
    if builds == [] || builds[|builds| - 1].error.None? then 0 else 1 + Streak(builds[..|builds| - 1])
  }

  /** What the gate remembers is what the builds say, every build waited out the
      backoff of the failure before it, and a prune ran before the third build of a
      streak and before no other. */
  ghost predicate Faithful(c: Setup, log: Log) {
    && Remembers(c, log.gate, log.builds) && Paced(c, log.builds)
    && (log.builds != [] ==> c.canRepair)
  }

  ghost predicate Remembers(c: Setup, g: Gate, b: seq<Build>) {
    && g.failures == Streak(b)
    && g.lastErr == (if b == [] then None else b[|b| - 1].error)
    && (g.lastErr.Some? <==> g.failures > 0)
    && g.next == (if g.failures == 0 then None else Some(b[|b| - 1].at + Backoff(c.base, g.failures)))
    && (g.pruned <==> c.canPrune && g.failures >= 3)
  }

  ghost predicate Paced(c: Setup, b: seq<Build>) {
    && (forall i :: 0 <= i < |b| ==> (b[i].pruned <==> c.canPrune && Streak(b[..i]) == 2))
    && (forall i :: 0 < i < |b| && b[i - 1].error.Some? ==>
          b[i].at >= b[i - 1].at + Backoff(c.base, Streak(b[..i])))
  }

  lemma StreakSnoc(builds: seq<Build>, b: Build)
    ensures Streak(builds + [b]) == if b.error.None? then 0 else 1 + Streak(builds)
    ensures forall i :: 0 <= i <= |builds| ==> (builds + [b])[..i] == builds[..i]
  {
    assert (builds + [b])[..|builds|] == builds;
  }

  lemma PacedSnoc(c: Setup, b: seq<Build>, next: Build)
    requires Paced(c, b)
    requires next.pruned <==> c.canPrune && Streak(b) == 2
    requires b != [] && b[|b| - 1].error.Some? ==> next.at >= b[|b| - 1].at + Backoff(c.base, Streak(b))
    ensures Paced(c, b + [next])
  {
    hide Backoff;
    StreakSnoc(b, next);
    assert b[..|b|] == b;
    hide Streak;
  }

  lemma FaithfulStep(c: Setup, log: Log, a: Attempt)
    requires Faithful(c, log) && !Refused(c, log.gate, a)
    ensures Faithful(c, Log(Repaired(c, log.gate, a), log.builds + [Build(a.now, a.build, Prunes(c, log.gate))]))
  {
    hide Backoff, Paced;
    var next := Build(a.now, a.build, Prunes(c, log.gate));
    StreakSnoc(log.builds, next);
    PacedSnoc(c, log.builds, next);
    hide Streak;
  }

  lemma {:induction false} GateIsFaithful(c: Setup, calls: seq<Attempt>)
    ensures Faithful(c, Run(c, calls))
  {
    hide Backoff, Refused, Repaired, Prunes;
    if calls != [] {
      var front, a := calls[..|calls| - 1], calls[|calls| - 1];
      GateIsFaithful(c, front);
      if Refused(c, Run(c, front).gate, a) {
        RefusedChangesNothing(c, Run(c, front).gate, a);
      } else {
        FaithfulStep(c, Run(c, front), a);
      }
    }
  }

  lemma RefusedChangesNothing(c: Setup, g: Gate, a: Attempt)
    requires Refused(c, g, a)
    ensures Repaired(c, g, a) == g
  {
  }

  /** What the caller is told is what the log of builds says: Built for a build without
      error, Failed with the error of one that had it, and Waiting only after a failed
      build, with its error, until its time plus the backoff of the streak. Any other
      answer means that no build ran. */
  lemma AnswersAreHonest(c: Setup, calls: seq<Attempt>, a: Attempt)
    ensures var before, after := Run(c, calls), Run(c, calls + [a]);
            var said, b := Answer(c, before.gate, a), before.builds;
            var ran := |after.builds| > |b|;
            && (ran ==> after.builds[..|b|] == b && |after.builds| == |b| + 1 && after.builds[|b|].at == a.now)
            && (!ran ==> after == before)
            && (said.Built? <==> ran && after.builds[|b|].error == None)
            && (forall e :: said == Failed(e) <==> ran && after.builds[|b|].error == Some(e))
            && (said.Cancelled? <==> a.cancelled)
            && (forall t, e :: said == Waiting(t, e) <==>
                  && !a.cancelled && b != [] && b[|b| - 1].error.Some? && e == b[|b| - 1].error
                  && t == b[|b| - 1].at + Backoff(c.base, Streak(b)) && a.now < t)
  {
    hide Backoff;
    GateIsFaithful(c, calls);
    assert (calls + [a])[..|calls|] == calls;
    var b := Run(c, calls).builds;
    assert b != [] && b[|b| - 1].error.Some? ==> Streak(b) > 0;
    if Refused(c, Run(c, calls).gate, a) { RefusedChangesNothing(c, Run(c, calls).gate, a); }
    hide Run, Streak, Paced;
  }

  /** The waits of the first n failures of a streak. */
  function Waits(base: int, n: nat): int {
    if n == 0 then 0 else Waits(base, n - 1) + Backoff(base, n)
  }

  /** The n-th consecutive failure comes no sooner after the first than the sum of
      the backoffs in between. */
  lemma {:induction false} StreakIsSpaced(c: Setup, calls: seq<Attempt>, last: nat, n: nat)
    requires var b := Run(c, calls).builds;
             last < |b| && n >= 1 && Streak(b[..last + 1]) == n
    ensures var b := Run(c, calls).builds;
            n <= last + 1 && b[last].at >= b[last + 1 - n].at + Waits(c.base, n - 1)
    decreases n
  {
    var b := Run(c, calls).builds;
    GateIsFaithful(c, calls);
    hide Backoff, Run;
    assert b[..last + 1][..last] == b[..last];
    if n > 1 {
      assert b[..last] != [] && last >= 1;
      assert b[..last - 1 + 1] == b[..last];
      assert b[..last][|b[..last]| - 1] == b[last - 1];
      StreakIsSpaced(c, calls, last - 1, n - 1);
    }
  }
}
