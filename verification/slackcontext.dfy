/** The transcript a turn is shown: durable admissions merged with channel history,
    in order, cut to a window around the target
    (internal/agentcontext/capture.go). */
module SlackContext {
  import opened Counting
  import opened Options
  import opened Ordering

  datatype Input = Input(
    kind: string, channel: string, thread: string, ts: string, user: string, text: string, received: int, rest: string)

  datatype Message = Message(ts: string, thread: string, user: string, bot: string, text: string, rest: string)

  predicate SameConversation(input: Input, target: Input) {
    if target.thread == "" then input.thread == "" else input.thread == target.thread || input.ts == target.thread
  }

  function FromHistory(m: Message, target: Input): Input {
    Input(if m.bot != "" then "bot_message" else "message", target.channel, m.thread, m.ts,
          if m.bot != "" && m.user == "" then m.bot else m.user, m.text, 0, m.rest)
  }

  predicate Admits(input: Input, target: Input) {
    input.ts != "" && SameConversation(input, target)
  }

  /** The durable admissions by timestamp, the last one under each. */
  function AdmittedMap(admitted: seq<Input>, target: Input): map<string, Input> {
    if admitted == [] then map[]
    else
      var last, before := admitted[|admitted| - 1], AdmittedMap(admitted[..|admitted| - 1], target);
      if Admits(last, target) then before[last.ts := last] else before
  }

  /** History fills the timestamps nothing else holds, the first message of each. */
  function WithHistory(held: map<string, Input>, history: seq<Message>, target: Input): map<string, Input> {
    if history == [] then held
    else
      var last, before := history[|history| - 1], WithHistory(held, history[..|history| - 1], target);
      if last.ts == "" || last.ts in before then before else before[last.ts := FromHistory(last, target)]
  }

  function Merged(admitted: seq<Input>, history: seq<Message>, target: Input): map<string, Input> {
    var both := WithHistory(AdmittedMap(admitted, target), history, target);
    if target.ts != "" then both[target.ts := target] else both
  }

  /** The comparison of the sort: by timestamp, then by arrival. */
  predicate Earlier(a: Input, b: Input) {
    Less(a.ts, b.ts) || (a.ts == b.ts && a.received < b.received)
  }

  ghost predicate KeyedByTime(m: map<string, Input>) {
    forall ts :: ts in m ==> m[ts].ts == ts && ts != ""
  }

  /** The values of the map in order of time. */
  ghost predicate Transcript(all: seq<Input>, m: map<string, Input>) {
    Ascending(all, Earlier) && forall x :: x in all <==> x.ts in m && m[x.ts] == x
  }

  lemma {:induction false} AdmittedKeyed(admitted: seq<Input>, target: Input)
    ensures KeyedByTime(AdmittedMap(admitted, target))
  {
    if admitted != [] {
      AdmittedKeyed(admitted[..|admitted| - 1], target);
    }
  }

  lemma {:induction false} HistoryKeyed(held: map<string, Input>, history: seq<Message>, target: Input)
    requires KeyedByTime(held)
    ensures KeyedByTime(WithHistory(held, history, target))
    ensures forall ts :: ts in held ==> ts in WithHistory(held, history, target) && WithHistory(held, history, target)[ts] == held[ts]
  {
    if history != [] {
      HistoryKeyed(held, history[..|history| - 1], target);
    }
  }

  lemma MergedKeyed(admitted: seq<Input>, history: seq<Message>, target: Input)
    ensures KeyedByTime(Merged(admitted, history, target))
  {
    AdmittedKeyed(admitted, target);
    HistoryKeyed(AdmittedMap(admitted, target), history, target);
  }

  /** The last admission of the conversation at a timestamp. */
  ghost predicate LastAdmitted(admitted: seq<Input>, target: Input, ts: string, i: int) {
    && 0 <= i < |admitted| && admitted[i].ts == ts && Admits(admitted[i], target)
    && forall j :: i < j < |admitted| && Admits(admitted[j], target) ==> admitted[j].ts != ts
  }

  /** The first message of the history at a timestamp. */
  ghost predicate FirstInHistory(history: seq<Message>, ts: string, i: int) {
    0 <= i < |history| && history[i].ts == ts && forall j :: 0 <= j < i ==> history[j].ts != ts
  }

  lemma {:induction false} AdmittedFrom(admitted: seq<Input>, target: Input, ts: string)
    ensures ts in AdmittedMap(admitted, target) <==> exists i :: LastAdmitted(admitted, target, ts, i)
    ensures forall i :: LastAdmitted(admitted, target, ts, i) ==> AdmittedMap(admitted, target)[ts] == admitted[i]
  {
    if admitted != [] {
      var n := |admitted| - 1;
      var front, last := admitted[..n], admitted[n];
      AdmittedFrom(front, target, ts);
      hide Admits;
      if Admits(last, target) && last.ts == ts {
        assert LastAdmitted(admitted, target, ts, n);
      } else {
        assert forall i :: LastAdmitted(front, target, ts, i) <==> LastAdmitted(admitted, target, ts, i);
      }
    }
  }

  lemma {:induction false} HistoryFrom(held: map<string, Input>, history: seq<Message>, target: Input, ts: string)
    requires ts !in held && ts != ""
    ensures ts in WithHistory(held, history, target) <==> exists i :: FirstInHistory(history, ts, i)
    ensures forall i :: FirstInHistory(history, ts, i) ==>
              ts in WithHistory(held, history, target)
              && WithHistory(held, history, target)[ts] == FromHistory(history[i], target)
  {
    hide FromHistory;
    if history != [] {
      var n := |history| - 1;
      var front := history[..n];
      HistoryFrom(held, front, target, ts);
      assert forall i :: FirstInHistory(front, ts, i) ==> FirstInHistory(history, ts, i);
      assert forall i :: 0 <= i < n ==> (FirstInHistory(history, ts, i) <==> FirstInHistory(front, ts, i));
      if ts !in WithHistory(held, front, target) && history[n].ts == ts {
        FirstOfAll(front, ts);
        assert FirstInHistory(history, ts, n);
      }
    }
  }

  lemma {:induction false} FirstOfAll(history: seq<Message>, ts: string)
    ensures (forall i :: !FirstInHistory(history, ts, i)) ==> forall j :: 0 <= j < |history| ==> history[j].ts != ts
  {
    if history != [] {
      var n := |history| - 1;
      FirstOfAll(history[..n], ts);
      assert forall i :: FirstInHistory(history[..n], ts, i) ==> FirstInHistory(history, ts, i);
      if forall i :: !FirstInHistory(history, ts, i) {
        assert !FirstInHistory(history, ts, n);
      }
    }
  }

  /** Precedence at every timestamp: the target over the last admission there, an
      admission over the history, and of the history its first message there. */
  lemma Precedence(admitted: seq<Input>, history: seq<Message>, target: Input, ts: string)
    ensures var m := Merged(admitted, history, target);
            && (ts == target.ts != "" ==> ts in m && m[ts] == target)
            && (ts != target.ts ==>
                  (forall i :: LastAdmitted(admitted, target, ts, i) ==> ts in m && m[ts] == admitted[i])
                  && ((forall i :: !LastAdmitted(admitted, target, ts, i)) && ts != "" ==>
                        forall i :: FirstInHistory(history, ts, i) ==> ts in m && m[ts] == FromHistory(history[i], target))
                  && (ts in m ==> ts != "" && ((exists i :: LastAdmitted(admitted, target, ts, i))
                                               || exists i :: FirstInHistory(history, ts, i))))
  {
    hide FromHistory, Admits, LastAdmitted, FirstInHistory;
    MergedKeyed(admitted, history, target);
    AdmittedKeyed(admitted, target);
    HistoryKeyed(AdmittedMap(admitted, target), history, target);
    AdmittedFrom(admitted, target, ts);
    if ts !in AdmittedMap(admitted, target) && ts != "" {
      HistoryFrom(AdmittedMap(admitted, target), history, target, ts);
    }
  }

  /** A history message as the transcript tells it: its words, its place and its author,
      a bot by its own name only when no user is named. */
  ghost predicate TellsOf(x: Input, m: Message, target: Input) {
    && x.ts == m.ts && x.thread == m.thread && x.text == m.text && x.rest == m.rest
    && x.channel == target.channel && x.received == 0
    && (if m.bot == "" then x.kind == "message" && x.user == m.user
        else x.kind == "bot_message" && x.user == if m.user == "" then m.bot else m.user)
  }

  /** Of the target's conversation: its thread, the thread's root, or the channel's
      unthreaded messages. */
  ghost predicate InConversation(x: Input, target: Input) {
    (target.thread == "" && x.thread == "") || (target.thread != "" && (x.thread == target.thread || x.ts == target.thread))
  }

  /** Where every entry of the transcript comes from, and that nothing that has a
      timestamp and belongs there is left out. */
  lemma Provenance(admitted: seq<Input>, history: seq<Message>, target: Input, ts: string)
    ensures var m := Merged(admitted, history, target);
            && (ts in m ==>
                  ts != "" && m[ts].ts == ts
                  && (m[ts] == target || (m[ts] in admitted && InConversation(m[ts], target))
                      || exists i :: 0 <= i < |history| && TellsOf(m[ts], history[i], target)))
            && (ts != "" && (exists i :: 0 <= i < |history| && history[i].ts == ts) ==> ts in m)
    ensures forall i :: 0 <= i < |admitted| && admitted[i].ts == ts != "" && InConversation(admitted[i], target) ==>
              ts in Merged(admitted, history, target)
  {
    Precedence(admitted, history, target, ts);
    MergedKeyed(admitted, history, target);
    hide Merged, FirstInHistory, LastAdmitted;
    if exists i :: LastAdmitted(admitted, target, ts, i) {
      var i :| LastAdmitted(admitted, target, ts, i);
      AdmittedHere(admitted, target, ts, i);
    }
    LastOfAll(admitted, target, ts);
    FirstOfAll(history, ts);
    FirstIsHere(history, ts);
  }

  lemma FirstIsHere(history: seq<Message>, ts: string)
    ensures forall i :: FirstInHistory(history, ts, i) ==> 0 <= i < |history| && history[i].ts == ts
  {
  }

  lemma AdmittedHere(admitted: seq<Input>, target: Input, ts: string, i: int)
    requires LastAdmitted(admitted, target, ts, i)
    ensures 0 <= i < |admitted| && admitted[i].ts == ts && InConversation(admitted[i], target)
  {
  }

  lemma {:induction false} LastOfAll(admitted: seq<Input>, target: Input, ts: string)
    ensures (forall i :: !LastAdmitted(admitted, target, ts, i)) ==>
              forall j :: 0 <= j < |admitted| && admitted[j].ts == ts != "" ==> !InConversation(admitted[j], target)
  {
    if admitted != [] {
      var n := |admitted| - 1;
      LastOfAll(admitted[..n], target, ts);
      if forall i :: !LastAdmitted(admitted, target, ts, i) {
        assert !LastAdmitted(admitted, target, ts, n);
        assert forall i :: LastAdmitted(admitted[..n], target, ts, i) ==> LastAdmitted(admitted, target, ts, i);
      }
    }
  }

  // ---- One transcript, whatever the iteration order ----

  lemma EarlierDecides(all: seq<Input>, m: map<string, Input>)
    requires forall x :: x in all ==> x.ts in m && m[x.ts] == x
    ensures Decides(all, Earlier)
  {
    forall x | x in all ensures !Earlier(x, x) {
      LessIrreflexive(x.ts);
    }
    forall x, y | x in all && y in all ensures x == y || Earlier(x, y) || Earlier(y, x) {
      LessTotal(x.ts, y.ts);
    }
    forall x, y, z | x in all && y in all && z in all && Earlier(x, y) && Earlier(y, z) ensures Earlier(x, z) {
      if Less(x.ts, y.ts) && Less(y.ts, z.ts) { LessTransitive(x.ts, y.ts, z.ts); }
    }
  }

  /** The merged transcript does not depend on the order a map is read in. */
  lemma TranscriptIsUnique(a: seq<Input>, b: seq<Input>, m: map<string, Input>)
    requires Transcript(a, m) && Transcript(b, m)
    ensures a == b
  {
    hide Earlier;
    EarlierDecides(a, m);
    AscendingIsUnique(a, b, Earlier);
  }

  /** Its timestamps strictly increase. */
  lemma StrictlyByTime(all: seq<Input>, m: map<string, Input>, i: nat, j: nat)
    requires Transcript(all, m) && i < j < |all|
    ensures Less(all[i].ts, all[j].ts)
  {
    assert all[i] in all && all[j] in all;
    LessIrreflexive(all[i].ts);
  }

  // ---- The window ----

  function Indices(lo: int, hi: int): (r: set<int>)
    ensures forall i :: i in r <==> lo <= i <= hi
    ensures lo <= hi + 1 ==> |r| == hi - lo + 1
    decreases hi - lo + 1
  {
    if lo > hi then {} else Indices(lo, hi - 1) + {hi}
  }

  /** The chosen elements, in order. */
  function Picked<T>(all: seq<T>, keep: set<int>): seq<T> {
    if all == [] then []
    else
      var last := |all| - 1;
      Picked(all[..last], keep) + if last in keep then [all[last]] else []
  }

  /** The last place a timestamp stands, or -1. */
  function LastAt(all: seq<Input>, ts: string): (at: int)
    ensures -1 <= at < |all|
    ensures at >= 0 ==> all[at].ts == ts
    ensures forall i :: at < i < |all| ==> all[i].ts != ts
  {
    if all == [] then -1
    else if all[|all| - 1].ts == ts then |all| - 1
    else LastAt(all[..|all| - 1], ts)
  }

  function RootAt(all: seq<Input>, target: Input): int {
    if target.thread == "" then -1 else LastAt(all, target.thread)
  }

  function Anchors(t: int, root: int): set<int> {
    {t} + if root >= 0 then {root} else {}
  }

  /** One run around the target, and the root wherever it is; up to three messages
      after the target come first, then all that precede it, and only then more that
      follow. */
  ghost predicate Centred(keep: set<int>, n: nat, t: int, root: int) {
    exists lo, hi ::
      && 0 <= lo <= t <= hi < n && keep == Indices(lo, hi) + Anchors(t, root)
      && (hi - t > 3 ==> lo == 0) && (lo < t ==> hi - t >= Least(3, n - t - 1))
  }

  /** What targetCentered returns. */
  ghost predicate Window(r: seq<Input>, all: seq<Input>, target: Input, limit: int) {
    var t, root := LastAt(all, target.ts), RootAt(all, target);
    if limit < 1 || |all| <= limit then r == all
    else if t < 0 then r == all[|all| - limit..]
    else
      exists keep :: Centred(keep, |all|, t, root) && r == Picked(all, keep)
                     && |keep| == (if limit < |Anchors(t, root)| then |Anchors(t, root)| else limit)
  }

  method TargetCentered(all: seq<Input>, target: Input, limit: int) returns (r: seq<Input>)
    ensures Window(r, all, target, limit)
  {
    hide Centred, Anchors, Picked;
    if limit < 1 || |all| <= limit { return all; }
    var t, root := -1, -1;
    for i := 0 to |all|
      invariant t == LastAt(all[..i], target.ts)
      invariant root == RootAt(all[..i], target)
    {
      assert all[..i + 1][..i] == all[..i];
      if all[i].ts == target.ts { t := i; }
      if target.thread != "" && all[i].ts == target.thread { root := i; }
    }
    assert all[..|all|] == all;
    if t < 0 { return all[|all| - limit..]; }
    var keep := Choose(|all|, t, root, limit);
    r := [];
    PickedNone(all, keep);
    for i := 0 to |all|
      invariant r == Picked(all[..i], keep)
    {
      PickedNext(all, keep, i);
      if i in keep { r := r + [all[i]]; }
    }
    assert all[..|all|] == all;
  }

  lemma PickedNone<T>(all: seq<T>, keep: set<int>)
    ensures Picked(all[..0], keep) == []
  {
  }

  lemma PickedNext<T>(all: seq<T>, keep: set<int>, i: nat)
    requires i < |all|
    ensures Picked(all[..i + 1], keep) == Picked(all[..i], keep) + if i in keep then [all[i]] else []
  {
    assert all[..i + 1][..i] == all[..i];
  }

  function Size(keep: set<int>): nat {
    |keep|
  }

  lemma OneMore(keep: set<int>, i: int)
    ensures |keep| <= |keep + {i}| <= |keep| + 1
  {
    if i in keep { assert keep + {i} == keep; }
  }

  /** The anchors and the run so far, no more than the limit unless the anchors are. */
  ghost predicate Chosen(keep: set<int>, lo: int, hi: int, anchors: set<int>, limit: int) {
    lo <= hi && keep == Indices(lo, hi) + anchors && |anchors| <= |keep| && (|keep| <= limit || |keep| <= |anchors|)
  }

  lemma ChooseUp(keep: set<int>, lo: int, hi: int, anchors: set<int>, limit: int)
    requires Chosen(keep, lo, hi, anchors, limit) && Size(keep) < limit
    ensures Chosen(keep + {hi + 1}, lo, hi + 1, anchors, limit)
  {
    OneMore(keep, hi + 1);
    assert Indices(lo, hi + 1) + anchors == (Indices(lo, hi) + anchors) + {hi + 1};
  }

  lemma ChooseDown(keep: set<int>, lo: int, hi: int, anchors: set<int>, limit: int)
    requires Chosen(keep, lo, hi, anchors, limit) && Size(keep) < limit
    ensures Chosen(keep + {lo - 1}, lo - 1, hi, anchors, limit)
  {
    OneMore(keep, lo - 1);
    assert Indices(lo - 1, hi) + anchors == (Indices(lo, hi) + anchors) + {lo - 1};
  }

  lemma ChosenFirst(t: int, root: int, limit: int)
    ensures Chosen(Anchors(t, root), t, t, Anchors(t, root), limit)
  {
    assert Indices(t, t) + Anchors(t, root) == Anchors(t, root);
  }

  /** Where the three loops leave off. */
  lemma ChosenLast(keep: set<int>, n: nat, t: int, root: int, limit: int, lo: int, hi: int)
    requires Chosen(keep, lo, hi, Anchors(t, root), limit) && limit < n
    requires 0 <= lo <= t <= hi < n && (hi - t > 3 ==> lo == 0) && (lo < t ==> hi - t >= Least(3, n - t - 1))
    requires Size(keep) >= limit || (lo == 0 && hi == n - 1)
    ensures Centred(keep, n, t, root)
    ensures |keep| == if limit < |Anchors(t, root)| then |Anchors(t, root)| else limit
  {
    hide Anchors;
    if |keep| < limit {
      SubsetSize(Indices(0, n - 1), keep);
    }
    assert Centred(Indices(lo, hi) + Anchors(t, root), n, t, root);
  }

  /** The three loops that grow the selection. */
  method Choose(n: nat, t: int, root: int, limit: int) returns (keep: set<int>)
    requires 0 <= t < n && root < n && 1 <= limit < n
    ensures Centred(keep, n, t, root)
    ensures |keep| == if limit < |Anchors(t, root)| then |Anchors(t, root)| else limit
  {
    hide Anchors, Centred, Chosen, Size;
    var anchors := Anchors(t, root);
    ChosenFirst(t, root, limit);
    keep := anchors;
    var following := Least(3, n - t - 1);
    var index := t + 1;
    while index <= t + following && Size(keep) < limit
      invariant t + 1 <= index <= t + following + 1
      invariant Chosen(keep, t, index - 1, anchors, limit)
    {
      ChooseUp(keep, t, index - 1, anchors, limit);
      keep := keep + {index};
      index := index + 1;
    }
    ghost var hi := index - 1;
    index := t - 1;
    while index >= 0 && Size(keep) < limit
      invariant -1 <= index < t
      invariant Chosen(keep, index + 1, hi, anchors, limit)
      invariant hi < t + following ==> index == t - 1 && Size(keep) >= limit
    {
      ChooseDown(keep, index + 1, hi, anchors, limit);
      keep := keep + {index};
      index := index - 1;
    }
    ghost var lo := index + 1;
    ghost var full := Size(keep) >= limit;
    index := t + following + 1;
    while index < n && Size(keep) < limit
      invariant t + following + 1 <= index <= n && t <= hi < n
      invariant full ==> Size(keep) >= limit && hi <= t + following && (lo < t ==> hi == t + following)
      invariant !full ==> lo == 0 && hi == index - 1
      invariant Chosen(keep, lo, hi, anchors, limit)
    {
      ChooseUp(keep, lo, hi, anchors, limit);
      keep := keep + {index};
      hi := index;
      index := index + 1;
    }
    ChosenLast(keep, n, t, root, limit, lo, hi);
  }

  lemma {:induction false} PickedSize<T>(all: seq<T>, keep: set<int>)
    requires forall i :: i in keep ==> 0 <= i < |all|
    ensures |Picked(all, keep)| == |keep|
    decreases |all|
  {
    if all == [] {
      NoneKept(keep);
    } else {
      var last := |all| - 1;
      var before := keep - {last};
      PickedSize(all[..last], before);
      PickedBelow(all[..last], keep, before);
    }
  }

  lemma NoneKept(keep: set<int>)
    requires forall i :: i in keep ==> 0 <= i < 0
    ensures |keep| == 0
  {
    assert forall i :: i !in keep;
    assert keep == {};
  }

  lemma {:induction false} PickedBelow<T>(all: seq<T>, a: set<int>, b: set<int>)
    requires forall i :: 0 <= i < |all| ==> (i in a <==> i in b)
    ensures Picked(all, a) == Picked(all, b)
  {
    if all != [] {
      PickedBelow(all[..|all| - 1], a, b);
    }
  }

  lemma {:induction false} PickedHas<T>(all: seq<T>, keep: set<int>, i: nat)
    requires i < |all| && i in keep
    ensures all[i] in Picked(all, keep)
  {
    if i < |all| - 1 {
      PickedHas(all[..|all| - 1], keep, i);
    }
  }

  lemma CentredHolds(keep: set<int>, n: nat, t: int, root: int)
    requires Centred(keep, n, t, root) && root < n
    ensures forall i :: i in keep ==> 0 <= i < n
    ensures t in keep && (root >= 0 ==> root in keep)
  {
  }

  lemma AnchorsSize(t: int, root: int)
    ensures |Anchors(t, root)| == if root >= 0 && root != t then 2 else 1
  {
  }

  /** With room for two or more and the target present, a longer transcript is cut to
      exactly the limit, target and thread root among what is kept. */
  lemma WindowKeepsTheAnchors(r: seq<Input>, all: seq<Input>, target: Input, limit: int)
    requires Window(r, all, target, limit) && 2 <= limit < |all| && LastAt(all, target.ts) >= 0
    ensures |r| == limit && all[LastAt(all, target.ts)] in r
    ensures RootAt(all, target) >= 0 ==> all[RootAt(all, target)] in r
  {
    hide Centred, Picked, LastAt, Anchors;
    var t, root := LastAt(all, target.ts), RootAt(all, target);
    var keep :| Centred(keep, |all|, t, root) && r == Picked(all, keep)
                && |keep| == (if limit < |Anchors(t, root)| then |Anchors(t, root)| else limit);
    AnchorsSize(t, root);
    CentredHolds(keep, |all|, t, root);
    PickedSize(all, keep);
    PickedHas(all, keep, t);
    if root >= 0 { PickedHas(all, keep, root); }
  }

  /** The side condition is needed: a limit of one keeps two when the root is
      another message, and one otherwise. */
  lemma LimitOfOne(r: seq<Input>, all: seq<Input>, target: Input)
    requires Window(r, all, target, 1) && |all| > 1 && LastAt(all, target.ts) >= 0
    ensures |r| == 1 <==> RootAt(all, target) < 0 || RootAt(all, target) == LastAt(all, target.ts)
  {
    hide Centred, Picked, LastAt, Anchors;
    var t, root := LastAt(all, target.ts), RootAt(all, target);
    var keep :| Centred(keep, |all|, t, root) && r == Picked(all, keep)
                && |keep| == (if 1 < |Anchors(t, root)| then |Anchors(t, root)| else 1);
    AnchorsSize(t, root);
    CentredHolds(keep, |all|, t, root);
    PickedSize(all, keep);
  }

  /** MergeSlackContext: the window over the one transcript of the merged map. */
  method MergeSlackContext(admitted: seq<Input>, history: seq<Message>, target: Input, limit: int) returns (r: seq<Input>)
    ensures exists all :: Transcript(all, Merged(admitted, history, target)) && Window(r, all, target, limit)
  {
    var byTimestamp: map<string, Input> := map[];
    for i := 0 to |admitted|
      invariant byTimestamp == AdmittedMap(admitted[..i], target)
    {
      assert admitted[..i + 1][..i] == admitted[..i];
      if Admits(admitted[i], target) { byTimestamp := byTimestamp[admitted[i].ts := admitted[i]]; }
    }
    assert admitted[..|admitted|] == admitted;
    ghost var held := byTimestamp;
    for i := 0 to |history|
      invariant byTimestamp == WithHistory(held, history[..i], target)
    {
      assert history[..i + 1][..i] == history[..i];
      var m := history[i];
      if m.ts == "" || m.ts in byTimestamp { continue; }
      byTimestamp := byTimestamp[m.ts := FromHistory(m, target)];
    }
    assert history[..|history|] == history;
    if target.ts != "" { byTimestamp := byTimestamp[target.ts := target]; }
    MergedKeyed(admitted, history, target);
    var all := InOrder(byTimestamp);
    r := TargetCentered(all, target, limit);
  }

  /** The values of the map, read in any order, then sorted. */
  method InOrder(m: map<string, Input>) returns (all: seq<Input>)
    requires KeyedByTime(m)
    ensures Transcript(all, m)
  {
    hide Earlier, Sort;
    var rest := m.Keys;
    var values: seq<Input> := [];
    while rest != {}
      invariant rest <= m.Keys && Unique(values)
      invariant forall x :: x in values <==> x.ts in m && x.ts !in rest && m[x.ts] == x
      decreases |rest|
    {
      var ts :| ts in rest;
      var value := m[ts];
      assert value !in values;
      values := values + [value];
      rest := rest - {ts};
    }
    EarlierDecides(values, m);
    SortSorts(values, Earlier);
    all := Sort(values, Earlier);
    SameMembers(all, values);
  }
}
