/** What counts as a change, how one is made safe to store, and which changes a turn
    is shown (internal/changeledger/changeledger.go). */
module ChangeLedger {
  import opened Options
  import opened Ordering
  import opened Text

  const MAX_SUMMARY := 400
  const MAX_ACTOR := 120
  const MAX_SOURCE_REF := 500
  const MAX_REVISION := 120
  const MAX_SCOPE_REFS := 12
  const MAX_SCOPE_REF := 120

  datatype Change = Change(
    id: string, source: string, identity: string, kind: string, at: Option<int>, services: seq<string>,
    repositories: seq<string>, actor: string, summary: string, sourceRef: string, revision: string)

  // ---- Canonical text ----

  /** collapseSpace: the words of a text with one space between them. */
  function Collapse(s: string): string {
    if s == "" then ""
    else
      var front, c := Collapse(s[..|s| - 1]), s[|s| - 1];
      if IsSpace(c) then front
      else if front != "" && IsSpace(s[|s| - 2]) then front + " " + [c]
      else front + [c]
  }

  /** Words with single spaces between them; a last space may be left over. */
  predicate Spaced(s: string) {
    forall i :: 0 <= i < |s| && IsSpace(s[i]) ==> s[i] == ' ' && i > 0 && !IsSpace(s[i - 1])
  }

  predicate Neat(s: string) {
    Spaced(s) && (s != "" ==> !IsSpace(s[|s| - 1]))
  }

  lemma {:induction false} CollapseNeat(s: string)
    ensures Neat(Collapse(s))
    ensures s != "" && !IsSpace(s[|s| - 1]) ==> Collapse(s) != ""
  {
    hide IsSpace;
    if s != "" {
      CollapseNeat(s[..|s| - 1]);
      assert IsSpace(' ') by { SpaceIsSpace(); }
    }
  }

  lemma SpaceIsSpace()
    ensures IsSpace(' ')
  {
  }

  lemma {:induction false} SpacedFixed(s: string)
    requires Spaced(s)
    ensures Collapse(s) == if s != "" && IsSpace(s[|s| - 1]) then s[..|s| - 1] else s
  {
    hide IsSpace;
    if s != "" {
      var front := s[..|s| - 1];
      SpacedFixed(front);
      assert s == front + [s[|s| - 1]];
      if !IsSpace(s[|s| - 1]) && front != "" && IsSpace(s[|s| - 2]) {
        assert front == front[..|front| - 1] + " ";
      }
    }
  }

  /** A prefix of a neat text, trimmed, is neat. */
  lemma NeatPrefix(s: string, k: nat)
    requires Neat(s) && k <= |s|
    ensures Neat(Trim(s[..k]))
  {
    hide IsSpace;
    var p := s[..k];
    assert Spaced(p);
    if p != "" {
      SpacedTrim(p);
    } else {
      TrimFixed("");
    }
  }

  lemma SpacedTrim(p: string)
    requires Spaced(p) && p != ""
    ensures Neat(Trim(p))
  {
    assert !IsSpace(p[0]);
    assert TrimLeft(p) == p;
    var last := |p| - 1;
    hide IsSpace, TrimLeft;
    if IsSpace(p[last]) {
      assert !IsSpace(p[last - 1]);
      assert SpacesStart(p, |p|) == SpacesStart(p, last) == last;
    }
  }

  lemma LowerNeat(s: string)
    requires Neat(s)
    ensures Neat(Lower(s))
  {
  }

  /** A scope reference as it is stored. */
  function Ref(value: string): string {
    Cut(Lower(Collapse(value)), MAX_SCOPE_REF)
  }

  lemma NeatText(s: string)
    ensures Neat(Cut(Collapse(s), MAX_SUMMARY))
    ensures Neat(Ref(s)) && Lower(Ref(s)) == Ref(s)
  {
    hide ByteLen, Trim, IsSpace, Fit, Neat;
    CollapseNeat(s);
    var words := Collapse(s);
    LowerNeat(words);
    NeatPrefix(words, Fit(words, MAX_SUMMARY));
    NeatPrefix(Lower(words), Fit(Lower(words), MAX_SCOPE_REF));
    LowerCut(words, MAX_SCOPE_REF);
  }

  predicate AllLower(s: string) {
    forall i :: 0 <= i < |s| ==> LowerChar(s[i]) == s[i]
  }

  lemma AllLowerFixed(s: string)
    ensures AllLower(s) <==> Lower(s) == s
    ensures AllLower(Lower(s))
  {
    hide LowerChar;
    LowerTwice(s);
    assert forall i :: 0 <= i < |s| ==> Lower(s)[i] == LowerChar(s[i]);
    assert Lower(Lower(s)) == Lower(s);
    assert forall i :: 0 <= i < |s| ==> Lower(Lower(s))[i] == LowerChar(Lower(s)[i]);
  }

  lemma AllLowerSlice(s: string, lo: nat, hi: nat)
    requires AllLower(s) && lo <= hi <= |s|
    ensures AllLower(s[lo..hi])
  {
    hide LowerChar;
  }

  lemma AllLowerTrim(p: string)
    requires AllLower(p)
    ensures AllLower(Trim(p))
  {
    hide AllLower, IsSpace;
    var left := TrimLeft(p);
    assert left == p[|p| - |left|..|p|];
    AllLowerSlice(p, |p| - |left|, |p|);
    assert TrimRight(left) == left[0..|TrimRight(left)|];
    AllLowerSlice(left, 0, |TrimRight(left)|);
  }

  lemma LowerCut(s: string, limit: nat)
    requires limit > 0
    ensures Lower(Cut(Lower(s), limit)) == Cut(Lower(s), limit)
  {
    hide ByteLen, Fit, AllLower, Lower, Trim;
    var low := Lower(s);
    AllLowerFixed(s);
    var k := Fit(low, limit);
    assert low[..k] == low[0..k];
    AllLowerSlice(low, 0, k);
    AllLowerTrim(low[..k]);
    AllLowerFixed(Trim(low[..k]));
  }

  lemma NeatFixed(s: string)
    requires Neat(s)
    ensures Collapse(s) == s
  {
    SpacedFixed(s);
  }

  /** Storing a reference again changes nothing. */
  lemma RefTwice(value: string)
    ensures Ref(Ref(value)) == Ref(value)
  {
    hide Collapse, Lower, Cut, Neat;
    NeatText(value);
    NeatFixed(Ref(value));
    CutTwice(Lower(Collapse(value)), MAX_SCOPE_REF);
  }

  // ---- References ----

  /** The first so many distinct references, in the order they came. */
  function FirstRefs(values: seq<string>): (r: seq<string>)
    ensures |r| <= MAX_SCOPE_REFS
  {
    if values == [] then []
    else
      var before, ref := FirstRefs(values[..|values| - 1]), Ref(values[|values| - 1]);
      if |before| == MAX_SCOPE_REFS || ref == "" || ref in before then before else before + [ref]
  }

  /** normalizeRefs */
  function NormalRefs(values: seq<string>): seq<string> {
    Sort(FirstRefs(values), Less)
  }

  method NormalizeRefs(values: seq<string>) returns (r: seq<string>)
    ensures r == NormalRefs(values)
  {
    hide Ref, Sort, Less;
    r := [];
    for i := 0 to |values|
      invariant r == FirstRefs(values[..i]) && |r| < MAX_SCOPE_REFS
    {
      assert values[..i + 1][..i] == values[..i];
      var ref := Ref(values[i]);
      if ref != "" && ref !in r {
        r := r + [ref];
        if |r| == MAX_SCOPE_REFS {
          FullStays(values, i + 1);
          break;
        }
      }
    }
    assert values[..|values|] == values;
    r := Sort(r, Less);
  }

  lemma {:induction false} FullStays(values: seq<string>, i: nat)
    requires i <= |values| && |FirstRefs(values[..i])| == MAX_SCOPE_REFS
    ensures FirstRefs(values) == FirstRefs(values[..i])
    decreases |values|
  {
    hide Ref;
    if i < |values| {
      var front := values[..|values| - 1];
      assert front[..i] == values[..i];
      FullStays(front, i);
    } else {
      assert values[..i] == values;
    }
  }

  lemma {:induction false} FirstRefsFixed(values: seq<string>)
    ensures Unique(FirstRefs(values))
    ensures forall v :: v in FirstRefs(values) ==> Ref(v) == v && v != ""
  {
    hide Ref;
    if values != [] {
      FirstRefsFixed(values[..|values| - 1]);
      RefTwice(values[|values| - 1]);
    }
  }

  lemma {:induction false} FixedRefs(values: seq<string>)
    requires |values| <= MAX_SCOPE_REFS && Unique(values) && forall v :: v in values ==> Ref(v) == v && v != ""
    ensures FirstRefs(values) == values
  {
    hide Ref;
    if values != [] {
      var front, last := values[..|values| - 1], values[|values| - 1];
      assert values == front + [last];
      FixedRefs(front);
      assert last in values;
    }
  }

  /** Normalising references again changes nothing. */
  lemma NormalRefsTwice(values: seq<string>)
    ensures NormalRefs(NormalRefs(values)) == NormalRefs(values)
  {
    hide Ref, Less, Sort, FirstRefs, Decides, Ascending;
    var first, sorted := FirstRefs(values), NormalRefs(values);
    FirstRefsFixed(values);
    StringsDecide(first);
    StringsDecide(sorted);
    SortSorts(first, Less);
    SameMembers(sorted, first);
    UniqueAscending(sorted);
    FixedRefs(sorted);
    SortSorts(sorted, Less);
    SameMembers(Sort(sorted, Less), sorted);
    StringsDecide(Sort(sorted, Less));
    AscendingIsUnique(Sort(sorted, Less), sorted, Less);
  }

  lemma UniqueAscending(s: seq<string>)
    requires Ascending(s, Less)
    ensures Unique(s)
  {
    forall i, j | 0 <= i < j < |s| ensures s[i] != s[j] {
      LessIrreflexive(s[i]);
    }
  }

  /** The references in what was sent. */
  function Sent(values: seq<string>): set<string> {
    set i | 0 <= i < |values| && Ref(values[i]) != "" :: Ref(values[i])
  }

  lemma SentNext(values: seq<string>)
    requires values != []
    ensures var ref := Ref(values[|values| - 1]);
            var before := Sent(values[..|values| - 1]);
            && Sent(values) == before + (if ref == "" then {} else {ref})
            && |Sent(values)| == |before| + if ref == "" || ref in before then 0 else 1
  {
    hide Ref;
    var front, last := values[..|values| - 1], values[|values| - 1];
    assert forall i :: 0 <= i < |front| ==> front[i] == values[i];
    if Ref(last) in Sent(front) {
      assert Sent(front) + {Ref(last)} == Sent(front);
    }
  }

  lemma {:induction false} FirstRefsAreSent(values: seq<string>)
    ensures Unique(FirstRefs(values))
    ensures forall v :: v in FirstRefs(values) ==> v in Sent(values)
    ensures |FirstRefs(values)| == if |Sent(values)| < MAX_SCOPE_REFS then |Sent(values)| else MAX_SCOPE_REFS
    ensures |FirstRefs(values)| < MAX_SCOPE_REFS ==> forall v :: v in Sent(values) ==> v in FirstRefs(values)
  {
    hide Ref;
    if values != [] {
      hide Sent;
      FirstRefsAreSent(values[..|values| - 1]);
      SentNext(values);
    }
  }

  /** A reference is kept exactly when it was sent with fewer than twelve others before
      it. */
  lemma {:induction false} FirstRefsExactly(values: seq<string>, ref: string)
    ensures ref in FirstRefs(values) <==>
              ref != "" && exists i :: 0 <= i < |values| && Ref(values[i]) == ref && |Sent(values[..i])| < 12
  {
    hide Ref, Sent;
    if values != [] {
      var n := |values| - 1;
      var front := values[..n];
      FirstRefsExactly(front, ref);
      FirstRefsAreSent(front);
      assert forall i :: 0 <= i < n ==> front[i] == values[i] && front[..i] == values[..i];
      assert values[..n] == front;
    }
  }

  /** The stored references are those, sorted. */
  lemma ReferencesExactly(values: seq<string>, ref: string)
    ensures ref in NormalRefs(values) <==>
              ref != "" && exists i :: 0 <= i < |values| && Ref(values[i]) == ref && |Sent(values[..i])| < 12
    ensures Ascending(NormalRefs(values), Less) && Unique(NormalRefs(values))
  {
    hide Ref, Sent, Less, Sort, FirstRefs, Decides, Ascending;
    FirstRefsExactly(values, ref);
    FirstRefsAreSent(values);
    StringsDecide(FirstRefs(values));
    SortSorts(FirstRefs(values), Less);
    SameMembers(NormalRefs(values), FirstRefs(values));
    UniqueAscending(NormalRefs(values));
  }

  // ---- Recording ----

  predicate ValidKind(kind: string) {
    kind in {"deploy", "merge", "infra_apply", "flag", "config"}
  }

  /** Record, given the digest EventID takes. */
  function Recorded(e: Change, eventId: (string, string) -> string): Option<Change> {
    var source, identity, kind := Trim(e.source), Trim(e.identity), Trim(e.kind);
    if source == "" || identity == "" || !ValidKind(kind) || e.at.None? then None
    else
      Some(Change(eventId(source, identity), source, identity, kind, e.at, NormalRefs(e.services),
                  NormalRefs(e.repositories), Bounded(e.actor, MAX_ACTOR), Cut(Collapse(e.summary), MAX_SUMMARY),
                  Bounded(e.sourceRef, MAX_SOURCE_REF), Bounded(e.revision, MAX_REVISION)))
  }

  /** A recorded change recorded again is the identical row, so a redelivery of it
      addresses and rewrites one row with what it already holds. */
  lemma RecordTwice(e: Change, eventId: (string, string) -> string)
    requires Recorded(e, eventId).Some?
    ensures Recorded(Recorded(e, eventId).value, eventId) == Recorded(e, eventId)
  {
    hide Trim, Cut, Collapse, NormalRefs, Neat;
    TrimTwice(e.source);
    TrimTwice(e.identity);
    TrimTwice(e.kind);
    NormalRefsTwice(e.services);
    NormalRefsTwice(e.repositories);
    BoundedTwice(e.actor, MAX_ACTOR);
    BoundedTwice(e.sourceRef, MAX_SOURCE_REF);
    BoundedTwice(e.revision, MAX_REVISION);
    NeatText(e.summary);
    NeatFixed(Cut(Collapse(e.summary), MAX_SUMMARY));
    CutTwice(Collapse(e.summary), MAX_SUMMARY);
  }

  /** Each list is stored from the list of that name. */
  lemma RecordedReferences(e: Change, eventId: (string, string) -> string, ref: string)
    requires Recorded(e, eventId).Some?
    ensures var stored := Recorded(e, eventId).value;
            && (ref in stored.services <==>
                  ref != "" && exists i :: 0 <= i < |e.services| && Ref(e.services[i]) == ref && |Sent(e.services[..i])| < 12)
            && (ref in stored.repositories <==>
                  ref != "" && exists i :: 0 <= i < |e.repositories| && Ref(e.repositories[i]) == ref
                                           && |Sent(e.repositories[..i])| < 12)
  {
    hide Trim, Cut, Collapse, NormalRefs, Ref, Sent;
    ReferencesExactly(e.services, ref);
    ReferencesExactly(e.repositories, ref);
  }

  predicate StoredRefs(refs: seq<string>) {
    |refs| <= 12 && Ascending(refs, Less) && forall v :: v in refs ==> Ref(v) == v && v != ""
  }

  lemma StoredRefsAreKept(refs: seq<string>)
    requires StoredRefs(refs)
    ensures NormalRefs(refs) == refs
  {
    hide Ref, Less, Sort, FirstRefs, Decides, Ascending;
    UniqueAscending(refs);
    FixedRefs(refs);
    StringsDecide(refs);
    SortSorts(refs, Less);
    SameMembers(Sort(refs, Less), refs);
    StringsDecide(Sort(refs, Less));
    AscendingIsUnique(Sort(refs, Less), refs, Less);
  }

  /** A change in stored form already: nothing in it is trimmed, folded or cut. */
  predicate StoredForm(e: Change) {
    && Tight(e.source) && e.source != "" && Tight(e.identity) && e.identity != ""
    && e.kind in {"deploy", "merge", "infra_apply", "flag", "config"} && e.at.Some?
    && StoredRefs(e.services) && StoredRefs(e.repositories)
    && Tight(e.actor) && ByteLen(e.actor) <= 120 && Neat(e.summary) && ByteLen(e.summary) <= 400
    && Tight(e.sourceRef) && ByteLen(e.sourceRef) <= 500 && Tight(e.revision) && ByteLen(e.revision) <= 120
  }

  /** Such a change is recorded as it is, under the id of its source and identity. */
  lemma StoredFormIsKept(e: Change, eventId: (string, string) -> string)
    requires StoredForm(e)
    ensures Recorded(e, eventId) == Some(e.(id := eventId(e.source, e.identity)))
  {
    hide Trim, ByteLen, Collapse, NormalRefs, Neat, StoredRefs, Bounded;
    TrimFixed(e.source);
    TrimFixed(e.identity);
    TrimFixed(e.kind);
    StoredRefsAreKept(e.services);
    StoredRefsAreKept(e.repositories);
    BoundedFixed(e.actor, 120);
    BoundedFixed(e.sourceRef, 500);
    BoundedFixed(e.revision, 120);
    NeatFixed(e.summary);
  }

  /** And whatever is recorded is in that form. */
  lemma RecordedIsStored(e: Change, eventId: (string, string) -> string)
    requires Recorded(e, eventId).Some?
    ensures StoredForm(Recorded(e, eventId).value)
  {
    hide Trim, ByteLen, Collapse, NormalRefs, Neat, StoredRefs, Cut, Tight;
    TrimIsTight(e.source);
    TrimIsTight(e.identity);
    BoundedIsTight(e.actor, 120);
    BoundedIsTight(e.sourceRef, 500);
    BoundedIsTight(e.revision, 120);
    NeatText(e.summary);
    CutTwice(Collapse(e.summary), 400);
    NormalRefsStored(e.services);
    NormalRefsStored(e.repositories);
  }

  lemma BoundedIsTight(s: string, limit: nat)
    requires limit > 0
    ensures Tight(Bounded(s, limit)) && ByteLen(Bounded(s, limit)) <= limit
  {
    hide Trim, ByteLen, Cut, Tight;
    TrimIsTight(s);
    CutTight(Trim(s), limit);
    CutTwice(Trim(s), limit);
  }

  lemma NormalRefsStored(values: seq<string>)
    ensures StoredRefs(NormalRefs(values))
  {
    hide Ref, Less, Sort, FirstRefs, Decides, Ascending;
    FirstRefsFixed(values);
    StringsDecide(FirstRefs(values));
    SortSorts(FirstRefs(values), Less);
    SameMembers(NormalRefs(values), FirstRefs(values));
  }

  // ---- Selection ----

  datatype Scope = Scope(services: seq<string>, repositories: seq<string>)

  /** An entry of the prompt: the change and why it was selected. */
  datatype Recent = Recent(change: Change, matchedOn: seq<string>)

  function Named(refs: seq<string>, wanted: seq<string>, reason: string): seq<string> {
    if refs == [] then []
    else
      var before, last := Named(refs[..|refs| - 1], wanted, reason), refs[|refs| - 1];
      if last in wanted then before + [reason + last] else before
  }

  /** matchedOn */
  function MatchedOn(c: Change, scope: Scope): seq<string> {
    Named(c.services, scope.services, "implicated service ")
    + Named(c.repositories, scope.repositories, "implicated repository ")
  }

  predicate Matches(c: Change, scope: Scope, horizon: int) {
    c.at.Some? && c.at.value > horizon && MatchedOn(c, scope) != []
  }

  function Matching(candidates: seq<Change>, scope: Scope, horizon: int): seq<Change> {
    if candidates == [] then []
    else
      var before, last := Matching(candidates[..|candidates| - 1], scope, horizon), candidates[|candidates| - 1];
      if Matches(last, scope, horizon) then before + [last] else before
  }

  /** The reasons kept beside the selection, under the change's id. */
  function Reasons(selected: seq<Change>, scope: Scope): map<string, seq<string>> {
    if selected == [] then map[]
    else Reasons(selected[..|selected| - 1], scope)[selected[|selected| - 1].id := MatchedOn(selected[|selected| - 1], scope)]
  }

  /** Newest first, ties by id. */
  predicate Newer(a: Change, b: Change) {
    var x, y := a.at.GetOr(0), b.at.GetOr(0);
    x > y || (x == y && Less(a.id, b.id))
  }

  function Top(candidates: seq<Change>, scope: Scope, horizon: int, limit: int): seq<Change> {
    var sorted := Sort(Matching(candidates, scope, horizon), Newer);
    if 0 <= limit < |sorted| then sorted[..limit] else sorted
  }

  function Entries(top: seq<Change>, reasons: map<string, seq<string>>): seq<Recent> {
    if top == [] then []
    else
      var last := top[|top| - 1];
      Entries(top[..|top| - 1], reasons) + [Recent(last, if last.id in reasons then reasons[last.id] else [])]
  }

  function Selected(candidates: seq<Change>, scope: Scope, now: int, window: int, limit: int): seq<Recent> {
    if limit <= 0 || window <= 0 || (scope.services == [] && scope.repositories == []) then []
    else
      var horizon := now - window;
      Entries(Top(candidates, scope, horizon, limit), Reasons(Matching(candidates, scope, horizon), scope))
  }

  method Select(candidates: seq<Change>, scope: Scope, now: int, window: int, limit: int) returns (entries: seq<Recent>)
    ensures entries == Selected(candidates, scope, now, window, limit)
  {
    hide MatchedOn, Sort, Newer, Matching, Reasons, Entries;
    if limit <= 0 || window <= 0 || (scope.services == [] && scope.repositories == []) { return []; }
    var horizon := now - window;
    var selected: seq<Change>, reasons: map<string, seq<string>> := [], map[];
    NothingSelected(scope, horizon);
    for i := 0 to |candidates|
      invariant selected == Matching(candidates[..i], scope, horizon)
      invariant reasons == Reasons(selected, scope)
    {
      var c := candidates[i];
      NextCandidate(candidates, i, scope, horizon);
      if c.at.None? || c.at.value <= horizon { continue; }
      var matched := MatchedOn(c, scope);
      if matched == [] { continue; }
      NextReason(selected, c, scope);
      selected := selected + [c];
      reasons := reasons[c.id := matched];
    }
    assert candidates[..|candidates|] == candidates;
    selected := Sort(selected, Newer);
    if |selected| > limit { selected := selected[..limit]; }
    entries := [];
    for i := 0 to |selected|
      invariant entries == Entries(selected[..i], reasons)
    {
      NextEntry(selected, i, reasons);
      entries := entries + [Recent(selected[i], if selected[i].id in reasons then reasons[selected[i].id] else [])];
    }
    assert selected[..|selected|] == selected;
  }

  lemma NothingSelected(scope: Scope, horizon: int)
    ensures Matching([], scope, horizon) == [] && Reasons([], scope) == map[]
    ensures forall reasons :: Entries([], reasons) == []
  {
  }

  lemma NextCandidate(candidates: seq<Change>, i: nat, scope: Scope, horizon: int)
    requires i < |candidates|
    ensures var before := Matching(candidates[..i], scope, horizon);
            Matching(candidates[..i + 1], scope, horizon)
            == if Matches(candidates[i], scope, horizon) then before + [candidates[i]] else before
  {
    assert candidates[..i + 1][..i] == candidates[..i];
  }

  lemma NextReason(selected: seq<Change>, c: Change, scope: Scope)
    ensures Reasons(selected + [c], scope) == Reasons(selected, scope)[c.id := MatchedOn(c, scope)]
  {
    assert (selected + [c])[..|selected|] == selected;
  }

  lemma NextEntry(top: seq<Change>, i: nat, reasons: map<string, seq<string>>)
    requires i < |top|
    ensures Entries(top[..i + 1], reasons)
            == Entries(top[..i], reasons) + [Recent(top[i], if top[i].id in reasons then reasons[top[i].id] else [])]
  {
    assert top[..i + 1][..i] == top[..i];
  }

  /** A change has an id of its own. */
  ghost predicate UniqueIds(candidates: seq<Change>) {
    forall i, j :: 0 <= i < j < |candidates| ==> candidates[i].id != candidates[j].id
  }

  lemma {:induction false} MatchingMembers(candidates: seq<Change>, scope: Scope, horizon: int)
    requires UniqueIds(candidates)
    ensures UniqueIds(Matching(candidates, scope, horizon))
    ensures forall c :: c in Matching(candidates, scope, horizon) <==> c in candidates && Matches(c, scope, horizon)
  {
    hide Matches;
    if candidates != [] {
      var front, last := candidates[..|candidates| - 1], candidates[|candidates| - 1];
      assert candidates == front + [last];
      MatchingMembers(front, scope, horizon);
      var before := Matching(front, scope, horizon);
      forall i | 0 <= i < |before| ensures before[i].id != last.id {
        assert before[i] in front;
      }
    }
  }

  lemma NewerDecides(cs: seq<Change>)
    requires UniqueIds(cs)
    ensures Decides(cs, Newer) && Unique(cs)
  {
    hide Less;
    forall x | x in cs ensures !Newer(x, x) {
      LessIrreflexive(x.id);
    }
    forall x, y | x in cs && y in cs ensures x == y || Newer(x, y) || Newer(y, x) {
      LessTotal(x.id, y.id);
    }
    forall x, y, z | x in cs && y in cs && z in cs && Newer(x, y) && Newer(y, z) ensures Newer(x, z) {
      if Less(x.id, y.id) && Less(y.id, z.id) { LessTransitive(x.id, y.id, z.id); }
    }
  }

  lemma {:induction false} ReasonsExact(selected: seq<Change>, scope: Scope)
    requires UniqueIds(selected)
    ensures forall c :: c in selected ==> c.id in Reasons(selected, scope) && Reasons(selected, scope)[c.id] == MatchedOn(c, scope)
  {
    hide MatchedOn;
    if selected != [] {
      var front, last := selected[..|selected| - 1], selected[|selected| - 1];
      assert selected == front + [last];
      ReasonsExact(front, scope);
      forall c | c in front ensures c.id != last.id {
        var i :| 0 <= i < |front| && front[i] == c;
        assert selected[i] == c;
      }
    }
  }

  lemma {:induction false} EntriesExact(top: seq<Change>, reasons: map<string, seq<string>>)
    ensures |Entries(top, reasons)| == |top|
    ensures forall i :: 0 <= i < |top| ==>
              Entries(top, reasons)[i] == Recent(top[i], if top[i].id in reasons then reasons[top[i].id] else [])
  {
    if top != [] {
      EntriesExact(top[..|top| - 1], reasons);
    }
  }

  /** The top of the sorted matches: in scope, newest first, nothing newer left out. */
  lemma TopIsNewest(candidates: seq<Change>, scope: Scope, horizon: int, limit: nat)
    requires UniqueIds(candidates)
    ensures var top, matching := Top(candidates, scope, horizon, limit), Matching(candidates, scope, horizon);
            && |top| == (if limit < |matching| then limit else |matching|)
            && (forall i :: 0 <= i < |top| ==> top[i] in matching)
            && Ascending(top, Newer)
            && (forall c, i :: c in matching && c !in top && 0 <= i < |top| ==> Newer(top[i], c))
  {
    hide Newer, Sort, MatchedOn, Decides, Matches;
    var matching := Matching(candidates, scope, horizon);
    var sorted, top := Sort(matching, Newer), Top(candidates, scope, horizon, limit);
    MatchingMembers(candidates, scope, horizon);
    NewerDecides(matching);
    SortSorts(matching, Newer);
    SameMembers(sorted, matching);
    forall i | 0 <= i < |top| ensures top[i] in matching {
      assert sorted[i] in sorted && top[i] == sorted[i];
    }
    forall c, i | c in matching && c !in top && 0 <= i < |top| ensures Newer(top[i], c) {
      var k :| 0 <= k < |sorted| && sorted[k] == c;
      assert forall j :: 0 <= j < |top| ==> top[j] == sorted[j] && top[j] != c;
    }
  }

  /** Selection is the exact top of the matching changes: as many as the limit allows,
      each in the window and in scope and with its own reasons, newest first, and none
      left out that is newer than one shown. */
  lemma SelectIsTopK(candidates: seq<Change>, scope: Scope, now: int, window: int, limit: int)
    requires UniqueIds(candidates) && limit > 0 && window > 0 && (scope.services != [] || scope.repositories != [])
    ensures var entries := Selected(candidates, scope, now, window, limit);
            var top, matching := Top(candidates, scope, now - window, limit), Matching(candidates, scope, now - window);
            && |entries| == |top| == (if limit < |matching| then limit else |matching|)
            && (forall i :: 0 <= i < |entries| ==>
                  entries[i].change == top[i] && top[i] in candidates && Matches(top[i], scope, now - window)
                  && entries[i].matchedOn == MatchedOn(top[i], scope) != [])
            && Ascending(top, Newer)
            && (forall c, i :: c in candidates && Matches(c, scope, now - window) && c !in top && 0 <= i < |top| ==>
                  Newer(top[i], c))
  {
    hide Newer, MatchedOn, Top, Matching, Ascending;
    var horizon := now - window;
    var matching, top := Matching(candidates, scope, horizon), Top(candidates, scope, horizon, limit);
    TopIsNewest(candidates, scope, horizon, limit);
    MatchingMembers(candidates, scope, horizon);
    ReasonsExact(matching, scope);
    EntriesExact(top, Reasons(matching, scope));
    hide UniqueIds;
  }

  lemma {:induction false} NamedExactly(refs: seq<string>, wanted: seq<string>, reason: string, said: string)
    ensures said in Named(refs, wanted, reason) <==> exists ref :: ref in refs && ref in wanted && said == reason + ref
  {
    if refs != [] {
      var front, last := refs[..|refs| - 1], refs[|refs| - 1];
      assert refs == front + [last];
      NamedExactly(front, wanted, reason, said);
    }
  }

  /** Why a change was selected: each service and each repository it shares with the
      scope, and nothing else. */
  lemma ReasonsAreShared(c: Change, scope: Scope, said: string)
    ensures said in MatchedOn(c, scope)
       <==> (exists s :: s in c.services && s in scope.services && said == "implicated service " + s)
            || exists r :: r in c.repositories && r in scope.repositories && said == "implicated repository " + r
    ensures MatchedOn(c, scope) != [] <==> Shares(c, scope)
  {
    hide Named;
    NamedExactly(c.services, scope.services, "implicated service ", said);
    NamedExactly(c.repositories, scope.repositories, "implicated repository ", said);
    SomeNamed(c.services, scope.services, "implicated service ");
    SomeNamed(c.repositories, scope.repositories, "implicated repository ");
  }

  predicate Shares(c: Change, scope: Scope) {
    || (exists i :: 0 <= i < |c.services| && c.services[i] in scope.services)
    || exists i :: 0 <= i < |c.repositories| && c.repositories[i] in scope.repositories
  }

  lemma {:induction false} SomeNamed(refs: seq<string>, wanted: seq<string>, reason: string)
    ensures Named(refs, wanted, reason) != [] <==> exists i :: 0 <= i < |refs| && refs[i] in wanted
  {
    if refs != [] {
      var front := refs[..|refs| - 1];
      SomeNamed(front, wanted, reason);
      assert forall i :: 0 <= i < |front| ==> front[i] == refs[i];
    }
  }

  /** A change is one the scope asks about: later than the window's start and sharing a
      service or repository with it. */
  ghost predicate AskedAbout(c: Change, scope: Scope, since: int) {
    c.at.Some? && c.at.value > since && Shares(c, scope)
  }

  /** What is shown, told by the clock: newest first, at equal times by id; a change the
      scope asks about is missing only from a full list of changes no older than it. */
  lemma SelectedByTheClock(candidates: seq<Change>, scope: Scope, now: int, window: int, limit: int)
    requires UniqueIds(candidates) && limit > 0 && window > 0 && (scope.services != [] || scope.repositories != [])
    ensures var entries := Selected(candidates, scope, now, window, limit);
            && |entries| <= limit
            && (forall i :: 0 <= i < |entries| ==>
                  entries[i].change in candidates && AskedAbout(entries[i].change, scope, now - window))
            && (forall i, j :: 0 <= i < j < |entries| ==> NotOlder(entries[i].change, entries[j].change))
            && (forall c :: c in candidates && AskedAbout(c, scope, now - window) ==>
                  (exists i :: 0 <= i < |entries| && entries[i].change == c)
                  || (|entries| == limit && forall i :: 0 <= i < |entries| ==> NotOlder(entries[i].change, c)))
  {
    hide MatchedOn, Selected, Less, Shares;
    var since := now - window;
    var entries, top := Selected(candidates, scope, now, window, limit), Top(candidates, scope, since, limit);
    SelectIsTopK(candidates, scope, now, window, limit);
    hide Top, Matching;
    forall c | c in candidates ensures Matches(c, scope, since) <==> AskedAbout(c, scope, since) {
      ReasonsAreShared(c, scope, "");
    }
    forall c | c in candidates && AskedAbout(c, scope, since) && forall i :: 0 <= i < |entries| ==> entries[i].change != c
      ensures |entries| == limit && forall i :: 0 <= i < |entries| ==> NotOlder(entries[i].change, c)
    {
      assert c !in top;
      MatchingMembers(candidates, scope, since);
      if |entries| < limit { TopHoldsAll(candidates, scope, since, limit, c); }
    }
  }

  ghost predicate NotOlder(a: Change, b: Change) {
    a.at.Some? && b.at.Some? && (a.at.value > b.at.value || (a.at.value == b.at.value && Less(a.id, b.id)))
  }

  lemma TopHoldsAll(candidates: seq<Change>, scope: Scope, horizon: int, limit: nat, c: Change)
    requires UniqueIds(candidates) && c in Matching(candidates, scope, horizon)
    requires |Top(candidates, scope, horizon, limit)| < limit
    ensures c in Top(candidates, scope, horizon, limit)
  {
    hide Newer, Sort, Matches, Decides;
    var matching := Matching(candidates, scope, horizon);
    MatchingMembers(candidates, scope, horizon);
    NewerDecides(matching);
    SortSorts(matching, Newer);
    SameMembers(Sort(matching, Newer), matching);
  }

  /** The order the candidates were read in leaves no trace. */
  lemma SelectIgnoresOrder(a: seq<Change>, b: seq<Change>, scope: Scope, now: int, window: int, limit: int)
    requires UniqueIds(a) && UniqueIds(b) && Within(a, b) && Within(b, a)
    ensures Selected(a, scope, now, window, limit) == Selected(b, scope, now, window, limit)
  {
    hide Newer, Sort, MatchedOn, Decides, Matches, Matching, Reasons, Entries;
    var horizon := now - window;
    var x, y := Matching(a, scope, horizon), Matching(b, scope, horizon);
    MatchingMembers(a, scope, horizon);
    MatchingMembers(b, scope, horizon);
    assert Within(x, y) && Within(y, x);
    SameTop(a, b, scope, horizon, limit);
    hide Within;
    ReasonsExact(x, scope);
    ReasonsExact(y, scope);
    SameEntries(Top(a, scope, horizon, limit), Reasons(x, scope), Reasons(y, scope));
  }

  lemma SameTop(a: seq<Change>, b: seq<Change>, scope: Scope, horizon: int, limit: int)
    requires var x, y := Matching(a, scope, horizon), Matching(b, scope, horizon);
             UniqueIds(x) && UniqueIds(y) && Within(x, y) && Within(y, x)
    ensures Top(a, scope, horizon, limit) == Top(b, scope, horizon, limit)
    ensures var x, y, top := Matching(a, scope, horizon), Matching(b, scope, horizon), Top(a, scope, horizon, limit);
            forall i :: 0 <= i < |top| ==> top[i] in x && top[i] in y
  {
    hide Newer, Sort, Decides, Matching;
    var x, y := Matching(a, scope, horizon), Matching(b, scope, horizon);
    NewerDecides(x);
    NewerDecides(y);
    SortIgnoresOrder(x, y, Newer);
    SortSorts(x, Newer);
    var sorted, top := Sort(x, Newer), Top(a, scope, horizon, limit);
    SameMembers(sorted, x);
    assert forall i :: 0 <= i < |top| ==> top[i] == sorted[i] && sorted[i] in sorted;
  }

  lemma SameEntries(top: seq<Change>, r: map<string, seq<string>>, s: map<string, seq<string>>)
    requires forall i :: 0 <= i < |top| ==> top[i].id in r && top[i].id in s && r[top[i].id] == s[top[i].id]
    ensures Entries(top, r) == Entries(top, s)
  {
    EntriesExact(top, r);
    EntriesExact(top, s);
  }
}
