/** What a run keeps from one correction round to the next: carryForward,
    CarryEvidence, CarryCoverage, CarryFindings and sameFinding
    (internal/decision/enforcement.go). */
module Carry {
  import opened Options
  import opened Text
  import opened Investigation

  /** Where a key first stands, or the length when it does not. */
  function IndexOf<T>(items: seq<T>, key: T -> string, k: string): (at: nat)
    ensures at <= |items|
    ensures at < |items| ==> key(items[at]) == k
    ensures forall i :: 0 <= i < at ==> key(items[i]) != k
  {
    if items == [] then 0
    else
      var front := items[..|items| - 1];
      var at := IndexOf(front, key, k);
      if at < |front| then at else if key(items[|front|]) == k then |front| else |items|
  }

  /** A row without identity is never folded into another; any other row replaces
      the one already held under its key, in place. */
  function Merge<T>(held: seq<T>, key: T -> string, item: T): seq<T> {
    var at := IndexOf(held, key, key(item));
    if key(item) != "" && at < |held| then held[at := item] else held + [item]
  }

  function MergeAll<T>(items: seq<T>, key: T -> string): seq<T> {
    if items == [] then [] else Merge(MergeAll(items[..|items| - 1], key), key, items[|items| - 1])
  }

  /** The index map carryForward keeps beside the merged rows. */
  ghost predicate Indexed<T>(at: map<string, nat>, merged: seq<T>, key: T -> string) {
    && (forall k :: k in at <==> k != "" && IndexOf(merged, key, k) < |merged|)
    && (forall k :: k in at ==> at[k] == IndexOf(merged, key, k))
  }

  /** carryForward */
  method CarryForward<T(0)>(prior: seq<T>, current: seq<T>, key: T -> string) returns (merged: seq<T>)
    ensures merged == MergeAll(prior + current, key)
  {
    merged := [];
    var at: map<string, nat> := map[];
    var items := prior + current;
    for i := 0 to |items|
      invariant merged == MergeAll(items[..i], key)
      invariant Indexed(at, merged, key)
    {
      hide Indexed, MergeAll, IndexOf;
      var item := items[i];
      var identity := key(item);
      MergeNext(items, key, i);
      ReadIndex(at, merged, key, identity);
      if identity == "" {
        IndexedAppend(at, merged, key, item);
        merged := merged + [item];
      } else if identity in at {
        IndexedReplace(at, merged, key, item);
        merged := merged[at[identity] := item];
      } else {
        IndexedAppend(at, merged, key, item);
        at := at[identity := |merged|];
        merged := merged + [item];
      }
    }
    assert items[..|items|] == items;
  }

  lemma MergeNext<T>(items: seq<T>, key: T -> string, i: nat)
    requires i < |items|
    ensures MergeAll(items[..i + 1], key) == Merge(MergeAll(items[..i], key), key, items[i])
  {
    assert items[..i + 1][..i] == items[..i];
  }

  lemma ReadIndex<T>(at: map<string, nat>, merged: seq<T>, key: T -> string, k: string)
    requires Indexed(at, merged, key)
    ensures k in at <==> k != "" && IndexOf(merged, key, k) < |merged|
    ensures k in at ==> at[k] == IndexOf(merged, key, k)
  {
  }

  lemma IndexedAppend<T>(at: map<string, nat>, merged: seq<T>, key: T -> string, item: T)
    requires Indexed(at, merged, key) && key(item) !in at
    ensures key(item) == "" ==> Indexed(at, merged + [item], key)
    ensures key(item) != "" ==> Indexed(at[key(item) := |merged|], merged + [item], key)
  {
    IndexAppend(merged, key, item);
    hide IndexOf;
  }

  lemma IndexedReplace<T>(at: map<string, nat>, merged: seq<T>, key: T -> string, item: T)
    requires Indexed(at, merged, key) && key(item) in at
    ensures Indexed(at, merged[at[key(item)] := item], key)
  {
    IndexReplace(merged, key, item);
    hide IndexOf;
  }

  lemma IndexAppend<T>(held: seq<T>, key: T -> string, item: T)
    ensures forall k :: IndexOf(held + [item], key, k)
                     == if IndexOf(held, key, k) < |held| || key(item) == k then IndexOf(held, key, k) else |held| + 1
  {
    assert (held + [item])[..|held|] == held;
  }

  lemma IndexUnique<T>(items: seq<T>, key: T -> string, k: string, at: nat)
    requires at <= |items| && (at < |items| ==> key(items[at]) == k)
    requires forall i :: 0 <= i < at ==> key(items[i]) != k
    ensures IndexOf(items, key, k) == at
  {
  }

  lemma IndexReplace<T>(held: seq<T>, key: T -> string, item: T)
    requires IndexOf(held, key, key(item)) < |held|
    ensures forall k :: IndexOf(held[IndexOf(held, key, key(item)) := item], key, k) == IndexOf(held, key, k)
  {
    var at := IndexOf(held, key, key(item));
    var next := held[at := item];
    forall k ensures IndexOf(next, key, k) == IndexOf(held, key, k) {
      IndexUnique(next, key, k, IndexOf(held, key, k));
    }
  }

  /** The last row under each key: last writer wins. */
  function ByKey<T>(items: seq<T>, key: T -> string): map<string, T> {
    if items == [] then map[]
    else ByKey(items[..|items| - 1], key)[key(items[|items| - 1]) := items[|items| - 1]]
  }

  lemma {:induction false} ByKeyConcat<T>(a: seq<T>, b: seq<T>, key: T -> string)
    ensures ByKey(a + b, key) == ByKey(a, key) + ByKey(b, key)
  {
    if b == [] {
      assert a + b == a;
    } else {
      assert (a + b)[..|a + b| - 1] == a + b[..|b| - 1];
      ByKeyConcat(a, b[..|b| - 1], key);
    }
  }

  lemma {:induction false} ByKeyDomain<T>(items: seq<T>, key: T -> string)
    ensures forall i :: 0 <= i < |items| ==> key(items[i]) in ByKey(items, key)
    ensures forall k :: k in ByKey(items, key) ==>
              ByKey(items, key)[k] in items && key(ByKey(items, key)[k]) == k
  {
    if items != [] {
      ByKeyDomain(items[..|items| - 1], key);
    }
  }

  ghost predicate DistinctKeys<T>(items: seq<T>, key: T -> string) {
    forall i, j :: 0 <= i < j < |items| ==> key(items[i]) != key(items[j])
  }

  ghost predicate Keyed<T>(items: seq<T>, key: T -> string) {
    forall x :: x in items ==> key(x) != ""
  }

  /** With one row to a key, the map holds exactly the rows. */
  lemma {:induction false} ByKeyExact<T>(items: seq<T>, key: T -> string)
    requires DistinctKeys(items, key)
    ensures forall i :: 0 <= i < |items| ==>
              key(items[i]) in ByKey(items, key) && ByKey(items, key)[key(items[i])] == items[i]
  {
    if items != [] {
      ByKeyExact(items[..|items| - 1], key);
    }
  }

  lemma {:induction false} ByKeyReplace<T>(held: seq<T>, key: T -> string, item: T, at: nat)
    requires at < |held| && key(held[at]) == key(item) && DistinctKeys(held, key)
    ensures ByKey(held[at := item], key) == ByKey(held, key)[key(item) := item]
    ensures DistinctKeys(held[at := item], key)
  {
    var n := |held| - 1;
    var next := held[at := item];
    if at == n {
      assert next[..n] == held[..n];
    } else {
      assert next[..n] == held[..n][at := item];
      ByKeyReplace(held[..n], key, item, at);
    }
  }

  /** Two rows have one name exactly when they have one key. */
  ghost predicate NamedAlike<T>(items: seq<T>, key: T -> string, name: T -> string) {
    forall x, y :: x in items && y in items ==> (key(x) == key(y) <==> name(x) == name(y))
  }

  lemma DistinctNames<T>(items: seq<T>, key: T -> string, name: T -> string)
    requires DistinctKeys(items, key) && NamedAlike(items, key, name)
    ensures DistinctKeys(items, name)
  {
  }

  /** carryForward keeps exactly the last row under each key, by whatever name the
      rows are told apart, as long as name and key tell the same rows apart. */
  lemma {:induction false} MergeIsOverride<T>(items: seq<T>, key: T -> string, name: T -> string)
    requires Keyed(items, key) && NamedAlike(items, key, name)
    ensures ByKey(MergeAll(items, key), name) == ByKey(items, name)
    ensures DistinctKeys(MergeAll(items, key), key)
  {
    if items != [] {
      var front, item := items[..|items| - 1], items[|items| - 1];
      MergeIsOverride(front, key, name);
      var held := MergeAll(front, key);
      MergeMembers(front, key);
      var at := IndexOf(held, key, key(item));
      if at < |held| {
        DistinctNames(held, key, name);
        ByKeyReplace(held, key, item, at);
        ByKeyReplace(held, name, item, at);
      } else {
        assert (held + [item])[..|held|] == held;
      }
    }
  }

  lemma {:induction false} MergeMembers<T>(items: seq<T>, key: T -> string)
    ensures forall i :: 0 <= i < |MergeAll(items, key)| ==> MergeAll(items, key)[i] in items
  {
    if items != [] {
      MergeMembers(items[..|items| - 1], key);
    }
  }

  /** The rows without identity. */
  function Unnamed<T>(items: seq<T>, key: T -> string): seq<T> {
    if items == [] then []
    else Unnamed(items[..|items| - 1], key) + if key(items[|items| - 1]) == "" then [items[|items| - 1]] else []
  }

  lemma {:induction false} UnnamedReplaced<T>(held: seq<T>, key: T -> string, at: nat, item: T)
    requires at < |held| && key(held[at]) == key(item) != ""
    ensures Unnamed(held[at := item], key) == Unnamed(held, key)
  {
    var n := |held| - 1;
    if at == n {
      assert held[at := item][..n] == held[..n];
    } else {
      assert held[at := item][..n] == held[..n][at := item];
      UnnamedReplaced(held[..n], key, at, item);
    }
  }

  /** Rows without identity all stay, in their order. */
  lemma {:induction false} UnnamedRowsStay<T>(items: seq<T>, key: T -> string)
    ensures Unnamed(MergeAll(items, key), key) == Unnamed(items, key)
  {
    if items != [] {
      var front, item := items[..|items| - 1], items[|items| - 1];
      UnnamedRowsStay(front, key);
      var held := MergeAll(front, key);
      var at := IndexOf(held, key, key(item));
      if key(item) != "" && at < |held| {
        UnnamedReplaced(held, key, at, item);
      } else {
        assert (held + [item])[..|held|] == held;
      }
    }
  }

  /** A row keeps the place its identity first had: rows that come later change no
      place and stand behind. */
  lemma {:induction false} PlacesAreKept<T>(prior: seq<T>, current: seq<T>, key: T -> string)
    ensures var held, merged := MergeAll(prior, key), MergeAll(prior + current, key);
            |held| <= |merged| <= |held| + |current|
            && forall i :: 0 <= i < |held| ==>
                 key(merged[i]) == key(held[i]) && (merged[i] == held[i] || (key(held[i]) != "" && merged[i] in current))
    decreases |current|
  {
    if current == [] {
      assert prior + current == prior;
    } else {
      var front, item := current[..|current| - 1], current[|current| - 1];
      assert (prior + current)[..|prior + current| - 1] == prior + front;
      assert MergeAll(prior + current, key) == Merge(MergeAll(prior + front, key), key, item);
      hide MergeAll;
      PlacesAreKept(prior, front, key);
    }
  }

  function EvidenceId(e: Evidence): string {
    e.id
  }

  function CoverageLayer(c: Coverage): string {
    c.layer
  }

  /** The identity CarryFindings folds on: the key, or the sentence of a record
      written before keys existed. */
  function FindingIdentity(f: Finding): string {
    if !Blank(f.key) then "key:" + Trim(f.key) else "legacy-what:" + Lower(Trim(f.what))
  }

  /** sameFinding */
  predicate SameFinding(prior: Finding, current: Finding) {
    var sameWords := !Blank(prior.what) && Lower(Trim(prior.what)) == Lower(Trim(current.what));
    if !Blank(prior.key) || !Blank(current.key) then
      if !Blank(prior.key) && !Blank(current.key) then Trim(prior.key) == Trim(current.key) else sameWords
    else
      (prior.id != "" && FindingKey(prior.id) == FindingKey(current.id)) || sameWords
  }

  predicate Answered(prior: Finding, current: seq<Finding>) {
    exists i :: 0 <= i < |current| && SameFinding(prior, current[i])
  }

  /** The prior findings this round says nothing about. */
  function Unanswered(prior: seq<Finding>, current: seq<Finding>): seq<Finding> {
    if prior == [] then []
    else
      var last := prior[|prior| - 1];
      Unanswered(prior[..|prior| - 1], current) + if Answered(last, current) then [] else [last]
  }

  /** Two findings are held under one identity exactly when their keys are one, or
      neither has a key and their sentences differ in case alone. */
  lemma IdentityTells(f: Finding, g: Finding)
    ensures FindingIdentity(f) == FindingIdentity(g)
       <==> if Blank(f.key) && Blank(g.key) then Lower(Trim(f.what)) == Lower(Trim(g.what)) else Trim(f.key) == Trim(g.key)
  {
    hide Trim, Lower;
    assert Blank(f.key) <==> FindingIdentity(f)[0] == 'l';
    assert Blank(g.key) <==> FindingIdentity(g)[0] == 'l';
    if Blank(f.key) {
      assert FindingIdentity(f)[12..] == Lower(Trim(f.what));
    } else {
      assert FindingIdentity(f)[4..] == Trim(f.key);
    }
    if Blank(g.key) {
      assert FindingIdentity(g)[12..] == Lower(Trim(g.what));
    } else {
      assert FindingIdentity(g)[4..] == Trim(g.key);
    }
  }

  /** The same letters, capitals or not. */
  predicate SameLetters(a: string, b: string) {
    |a| == |b| && forall i :: 0 <= i < |a| ==> LowerChar(a[i]) == LowerChar(b[i])
  }

  /** A finding of this round speaks of the same thing: by key where both have one;
      otherwise by the sentence, and where neither has a key by the identifier too. */
  predicate SpeaksOf(prior: Finding, current: Finding) {
    if Trim(prior.key) != "" && Trim(current.key) != "" then Trim(prior.key) == Trim(current.key)
    else
      || (Trim(prior.what) != "" && SameLetters(Trim(prior.what), Trim(current.what)))
      || (Trim(prior.key) == "" && Trim(current.key) == "" && prior.id != "" && FindingKey(prior.id) == FindingKey(current.id))
  }

  /** The prior findings kept are exactly those no finding of the round speaks of, in
      their order. */
  lemma {:induction false} UnansweredExactly(prior: seq<Finding>, current: seq<Finding>, f: Finding)
    ensures f in Unanswered(prior, current) <==> f in prior && forall c :: c in current ==> !SpeaksOf(f, c)
    ensures (forall p, c :: p in prior && c in current ==> !SpeaksOf(p, c)) ==> Unanswered(prior, current) == prior
  {
    hide Trim, FindingKey, Lower;
    if prior != [] {
      var front, last := prior[..|prior| - 1], prior[|prior| - 1];
      assert prior == front + [last];
      UnansweredExactly(front, current, f);
      forall c ensures SameFinding(last, c) <==> SpeaksOf(last, c) {
        SameFindingTells(last, c);
      }
      assert Unanswered(prior, current) == Unanswered(front, current) + if Answered(last, current) then [] else [last];
      hide SameFinding, SpeaksOf, Unanswered;
      assert Answered(last, current) <==> exists c :: c in current && SpeaksOf(last, c);
    }
  }

  lemma SameFindingTells(prior: Finding, current: Finding)
    ensures SameFinding(prior, current) <==> SpeaksOf(prior, current)
  {
    hide Trim, FindingKey;
    var p, c := Trim(prior.what), Trim(current.what);
    assert SameLetters(p, c) <==> Lower(p) == Lower(c) by {
      if Lower(p) == Lower(c) {
        assert forall i :: 0 <= i < |p| ==> Lower(p)[i] == Lower(c)[i];
      }
    }
    hide Lower, SameLetters;
  }

  function CarriedEvidence(prior: seq<Evidence>, current: seq<Evidence>): seq<Evidence> {
    MergeAll(prior + current, EvidenceId)
  }

  function CarriedCoverage(prior: seq<Coverage>, current: seq<Coverage>): seq<Coverage> {
    MergeAll(prior + current, CoverageLayer)
  }

  function CarriedFindings(prior: seq<Finding>, current: seq<Finding>): seq<Finding> {
    MergeAll(Unanswered(prior, current) + current, FindingIdentity)
  }

  method CarryEvidence(prior: seq<Evidence>, current: seq<Evidence>) returns (merged: seq<Evidence>)
    ensures merged == CarriedEvidence(prior, current)
  {
    merged := CarryForward(prior, current, EvidenceId);
  }

  method CarryCoverage(prior: seq<Coverage>, current: seq<Coverage>) returns (merged: seq<Coverage>)
    ensures merged == CarriedCoverage(prior, current)
  {
    merged := CarryForward(prior, current, CoverageLayer);
  }

  method CarryFindings(prior: seq<Finding>, current: seq<Finding>) returns (merged: seq<Finding>)
    ensures merged == CarriedFindings(prior, current)
  {
    var unanswered: seq<Finding> := [];
    for i := 0 to |prior|
      invariant unanswered == Unanswered(prior[..i], current)
    {
      hide SameFinding;
      assert prior[..i + 1][..i] == prior[..i];
      if !Answered(prior[i], current) {
        unanswered := unanswered + [prior[i]];
      }
    }
    assert prior[..|prior|] == prior;
    merged := CarryForward(unanswered, current, FindingIdentity);
  }
}
