/** What an alert reply decides, stripped of wording, and what is said to have moved
    between two of them (internal/alertstream/signature.go). */
module Signatures {
  import opened ChangeLedger
  import opened FoldOrder
  import opened Investigation
  import opened Ordering
  import opened Text

  /** The fields of a reply and its card that a signature reads. */
  datatype Reply = Reply(
    taskTitle: string, taskRepository: string, verdict: string, causeStatus: string, completionStatus: string,
    completionVerdict: string, coverage: seq<Coverage>, findings: seq<Finding>, firing: nat, resolved: nat)

  datatype Signature = Signature(
    verdict: string, cause: string, completion: string, outcome: string, layers: seq<string>, unexplained: nat,
    explained: nat, offerRepository: string, offerPresent: bool, firing: nat, resolved: nat)

  function Normal(value: string): string {
    Lower(Trim(value))
  }

  predicate Unwell(status: string) {
    status in {"degraded", "unhealthy", "unknown"}
  }

  predicate News(c: Coverage) {
    Normal(c.layer) != "" && Unwell(Normal(c.status))
  }

  function Entry(c: Coverage): string {
    Normal(c.layer) + "=" + Normal(c.status)
  }

  /** One entry for each layer and status that is not well, in the order met. */
  function Entries(coverage: seq<Coverage>): seq<string> {
    if coverage == [] then []
    else
      var before, last := Entries(coverage[..|coverage| - 1]), coverage[|coverage| - 1];
      if !News(last) || Entry(last) in before then before else before + [Entry(last)]
  }

  predicate IsExplained(f: Finding) {
    Normal(f.status) == "explained"
  }

  function CountExplained(findings: seq<Finding>): (n: nat)
    ensures n <= |findings|
  {
    if findings == [] then 0
    else CountExplained(findings[..|findings| - 1]) + if IsExplained(findings[|findings| - 1]) then 1 else 0
  }

  function Signed(r: Reply): Signature {
    Signature(Normal(r.verdict), Normal(r.causeStatus), Normal(r.completionStatus), Normal(r.completionVerdict),
              Sort(Entries(r.coverage), Less), |r.findings| - CountExplained(r.findings), CountExplained(r.findings),
              Normal(r.taskRepository), !Blank(r.taskTitle), r.firing, r.resolved)
  }

  /** SignatureOf */
  method SignatureOf(r: Reply) returns (s: Signature)
    ensures s == Signed(r)
  {
    hide News, Entry, IsExplained, Sort, Less, Normal;
    var layers: seq<string> := [];
    for i := 0 to |r.coverage|
      invariant layers == Entries(r.coverage[..i])
    {
      assert r.coverage[..i + 1][..i] == r.coverage[..i];
      if News(r.coverage[i]) && Entry(r.coverage[i]) !in layers {
        layers := layers + [Entry(r.coverage[i])];
      }
    }
    assert r.coverage[..|r.coverage|] == r.coverage;
    var explained, unexplained := 0, 0;
    for i := 0 to |r.findings|
      invariant explained == CountExplained(r.findings[..i]) && explained + unexplained == i
      invariant unexplained >= 0
    {
      assert r.findings[..i + 1][..i] == r.findings[..i];
      if IsExplained(r.findings[i]) { explained := explained + 1; } else { unexplained := unexplained + 1; }
    }
    assert r.findings[..|r.findings|] == r.findings;
    s := Signature(Normal(r.verdict), Normal(r.causeStatus), Normal(r.completionStatus), Normal(r.completionVerdict),
                   Sort(layers, Less), unexplained, explained, Normal(r.taskRepository), !Blank(r.taskTitle),
                   r.firing, r.resolved);
  }

  lemma {:induction false} EntriesMembers(coverage: seq<Coverage>)
    ensures Unique(Entries(coverage))
    ensures forall e :: e in Entries(coverage) <==> exists c :: c in coverage && News(c) && Entry(c) == e
  {
    hide News, Entry;
    if coverage != [] {
      var front, last := coverage[..|coverage| - 1], coverage[|coverage| - 1];
      assert coverage == front + [last];
      EntriesMembers(front);
    }
  }

  /** The layers are sorted and free of duplicates. */
  lemma LayersCanonical(r: Reply)
    ensures Ascending(Signed(r).layers, Less) && Unique(Signed(r).layers)
    ensures forall e :: e in Signed(r).layers <==> exists c :: c in r.coverage && News(c) && Entry(c) == e
  {
    hide News, Entry, Less, Sort, Decides, Normal;
    EntriesMembers(r.coverage);
    StringsDecide(Entries(r.coverage));
    SortSorts(Entries(r.coverage), Less);
    SameMembers(Signed(r).layers, Entries(r.coverage));
    UniqueAscending(Signed(r).layers);
  }

  /** A layer is listed exactly when some row calls it degraded, unhealthy or unknown,
      whatever the case and the outer white space. */
  lemma LayersTold(r: Reply, layer: string, status: string)
    requires '=' !in status
    ensures layer + "=" + status in Signed(r).layers
       <==> exists c :: c in r.coverage && Lower(Trim(c.layer)) + "=" + Lower(Trim(c.status)) == layer + "=" + status
                        && Lower(Trim(c.layer)) != "" && Lower(Trim(c.status)) in {"degraded", "unhealthy", "unknown"}
  {
    LayersCanonical(r);
    hide Trim, Lower, Signed;
  }

  lemma {:induction false} CountConcat(a: seq<Finding>, b: seq<Finding>)
    ensures CountExplained(a + b) == CountExplained(a) + CountExplained(b)
  {
    hide IsExplained;
    if b == [] {
      assert a + b == a;
    } else {
      assert (a + b)[..|a + b| - 1] == a + b[..|b| - 1];
      CountConcat(a, b[..|b| - 1]);
    }
  }

  lemma {:induction false} CountPermutes(a: seq<Finding>, b: seq<Finding>)
    requires multiset(a) == multiset(b)
    ensures CountExplained(a) == CountExplained(b) && |a| == |b|
    decreases |a|
  {
    hide IsExplained, CountExplained;
    SmallBag(a, b);
    if a == [] {
      assert b == [];
    } else {
      var front, x := a[..|a| - 1], a[|a| - 1];
      assert a == front + [x];
      var k := FindLast(front, x, b);
      CountPermutes(front, b[..k] + b[k + 1..]);
      CountConcat(front, [x]);
      CountConcat(b[..k], b[k + 1..]);
      CountConcat(b[..k], [x] + b[k + 1..]);
      CountConcat([x], b[k + 1..]);
    }
  }

  /** A signature does not depend on the order of coverage or findings, nor on
      coverage said twice. */
  lemma SignatureIsCanonical(r: Reply, coverage: seq<Coverage>, findings: seq<Finding>)
    requires Within(coverage, r.coverage) && Within(r.coverage, coverage)
    requires multiset(findings) == multiset(r.findings)
    ensures Signed(r.(coverage := coverage, findings := findings)) == Signed(r)
  {
    hide News, Entry, Less, Sort, Decides, Normal, IsExplained, CountExplained;
    var other := r.(coverage := coverage, findings := findings);
    CountPermutes(findings, r.findings);
    LayersCanonical(r);
    LayersCanonical(other);
    StringsDecide(Signed(r).layers);
    AscendingIsUnique(Signed(r).layers, Signed(other).layers, Less);
  }

  // ---- What moved ----

  const NOTHING_MOVED := "nothing in the typed decision moved"

  function FirstNonempty(a: string, b: string): string {
    if !Blank(a) then a else if !Blank(b) then b else ""
  }

  function OfferLabel(s: Signature): string {
    if !s.offerPresent then "" else FirstNonempty(s.offerRepository, "a task")
  }

  function Placeholder(value: string): string {
    FirstNonempty(value, "none")
  }

  function Joined(parts: seq<string>, separator: string): string {
    if parts == [] then ""
    else if |parts| == 1 then parts[0]
    else Joined(parts[..|parts| - 1], separator) + separator + parts[|parts| - 1]
  }

  function FindingCount(s: Signature): string {
    Itoa(s.unexplained) + " unexplained/" + Itoa(s.explained) + " explained"
  }

  /** One field of the line, when it moved. */
  function Note(field: string, was: string, now: string): seq<string> {
    if was == now then [] else [field + " " + Placeholder(was) + "→" + Placeholder(now)]
  }

  function Parts(a: Signature, previous: Signature): seq<string> {
    Note("verdict", previous.verdict, a.verdict) + Note("cause", previous.cause, a.cause)
    + Note("completion", previous.completion, a.completion) + Note("outcome", previous.outcome, a.outcome)
    + (if previous.layers == a.layers then [] else Note("layers", Joined(previous.layers, ","), Joined(a.layers, ",")))
    + (if previous.unexplained == a.unexplained && previous.explained == a.explained then []
       else ["findings " + FindingCount(previous) + "→" + FindingCount(a)])
    + (if previous.offerPresent == a.offerPresent && previous.offerRepository == a.offerRepository then []
       else Note("offer", OfferLabel(previous), OfferLabel(a)))
    + Note("firing", Itoa(previous.firing), Itoa(a.firing)) + Note("resolved", Itoa(previous.resolved), Itoa(a.resolved))
  }

  /** Signature.Change */
  function Change(a: Signature, previous: Signature): string {
    var parts := Parts(a, previous);
    if parts == [] then NOTHING_MOVED else Bounded(Joined(parts, "; "), 400)
  }

  /** Every part begins with a field's name, and no field's name begins like the
      sentence that says nothing moved. */
  predicate Telling(part: string) {
    part != "" && 'a' <= part[0] <= 'z' && part[0] != NOTHING_MOVED[0]
  }

  lemma NoteTells(field: string, was: string, now: string)
    requires Telling(field)
    ensures forall i :: 0 <= i < |Note(field, was, now)| ==> Telling(Note(field, was, now)[i])
    ensures Note(field, was, now) == [] <==> was == now
  {
    hide Blank;
  }

  lemma {:induction false} JoinedBegins(parts: seq<string>, separator: string)
    requires parts != [] && parts[0] != ""
    ensures Joined(parts, separator) != "" && Joined(parts, separator)[0] == parts[0][0]
  {
    if |parts| > 1 {
      JoinedBegins(parts[..|parts| - 1], separator);
    }
  }

  /** How a value is shown on either side of the arrow. */
  function Shown(value: string): string {
    if Blank(value) then "none" else value
  }

  lemma NoteShows(field: string, was: string, now: string)
    ensures Note(field, was, was) == []
    ensures was != now ==> Note(field, was, now) == [field + " " + Shown(was) + "→" + Shown(now)]
  {
    BlankNothing();
    hide Blank;
  }

  lemma OneLine(a: Signature, previous: Signature, line: string)
    requires Parts(a, previous) == [line]
    ensures Change(a, previous) == Bounded(line, 400)
  {
    hide Parts, Bounded;
    assert Joined([line], "; ") == line;
  }

  /** One field moved: the line names it, with what it was before the arrow and what it
      is now after it. */
  lemma OneTextMoved(s: Signature, v: string)
    ensures v != s.verdict ==> Change(s.(verdict := v), s) == Bounded("verdict " + Shown(s.verdict) + "→" + Shown(v), 400)
    ensures v != s.cause ==> Change(s.(cause := v), s) == Bounded("cause " + Shown(s.cause) + "→" + Shown(v), 400)
    ensures v != s.completion ==>
              Change(s.(completion := v), s) == Bounded("completion " + Shown(s.completion) + "→" + Shown(v), 400)
    ensures v != s.outcome ==> Change(s.(outcome := v), s) == Bounded("outcome " + Shown(s.outcome) + "→" + Shown(v), 400)
  {
    hide Blank, Bounded, Itoa, OfferLabel, Note, Shown, Change, Joined;
    assert "verdict" + " " == "verdict " && "cause" + " " == "cause ";
    assert "completion" + " " == "completion " && "outcome" + " " == "outcome ";
    Unmoved(s);
    NoteShows("verdict", s.verdict, v);
    NoteShows("cause", s.cause, v);
    NoteShows("completion", s.completion, v);
    NoteShows("outcome", s.outcome, v);
    if v != s.verdict { OneLine(s.(verdict := v), s, "verdict " + Shown(s.verdict) + "→" + Shown(v)); }
    if v != s.cause { OneLine(s.(cause := v), s, "cause " + Shown(s.cause) + "→" + Shown(v)); }
    if v != s.completion { OneLine(s.(completion := v), s, "completion " + Shown(s.completion) + "→" + Shown(v)); }
    if v != s.outcome { OneLine(s.(outcome := v), s, "outcome " + Shown(s.outcome) + "→" + Shown(v)); }
  }

  /** A field that did not move adds nothing to the line. */
  lemma Unmoved(s: Signature)
    ensures Note("verdict", s.verdict, s.verdict) == [] && Note("cause", s.cause, s.cause) == []
    ensures Note("completion", s.completion, s.completion) == [] && Note("outcome", s.outcome, s.outcome) == []
    ensures Note("firing", Itoa(s.firing), Itoa(s.firing)) == []
    ensures Note("resolved", Itoa(s.resolved), Itoa(s.resolved)) == []
  {
    hide Itoa;
  }

  lemma OneCountMoved(s: Signature, n: nat)
    ensures n != s.firing ==> Change(s.(firing := n), s) == Bounded("firing " + Itoa(s.firing) + "→" + Itoa(n), 400)
    ensures n != s.resolved ==> Change(s.(resolved := n), s) == Bounded("resolved " + Itoa(s.resolved) + "→" + Itoa(n), 400)
    ensures n != s.unexplained ==>
              Change(s.(unexplained := n), s)
              == Bounded("findings " + Itoa(s.unexplained) + " unexplained/" + Itoa(s.explained) + " explained→"
                         + Itoa(n) + " unexplained/" + Itoa(s.explained) + " explained", 400)
    ensures n != s.explained ==>
              Change(s.(explained := n), s)
              == Bounded("findings " + Itoa(s.unexplained) + " unexplained/" + Itoa(s.explained) + " explained→"
                         + Itoa(s.unexplained) + " unexplained/" + Itoa(n) + " explained", 400)
  {
    hide Blank, Bounded, Itoa, OfferLabel, Note, Shown, Change, Joined, FindingCount;
    assert "firing" + " " == "firing " && "resolved" + " " == "resolved ";
    Unmoved(s);
    ItoaInjective(s.firing, n);
    ItoaInjective(s.resolved, n);
    NumeralShown(s.firing);
    NumeralShown(s.resolved);
    NumeralShown(n);
    NoteShows("firing", Itoa(s.firing), Itoa(n));
    NoteShows("resolved", Itoa(s.resolved), Itoa(n));
    SameText(s, n);
    if n != s.firing { OneLine(s.(firing := n), s, "firing " + Itoa(s.firing) + "→" + Itoa(n)); }
    if n != s.resolved { OneLine(s.(resolved := n), s, "resolved " + Itoa(s.resolved) + "→" + Itoa(n)); }
    if n != s.unexplained {
      OneLine(s.(unexplained := n), s, "findings " + FindingCount(s) + "→" + FindingCount(s.(unexplained := n)));
    }
    if n != s.explained {
      OneLine(s.(explained := n), s, "findings " + FindingCount(s) + "→" + FindingCount(s.(explained := n)));
    }
  }

  lemma SameText(s: Signature, n: nat)
    ensures "findings " + FindingCount(s) + "→" + FindingCount(s.(unexplained := n))
         == "findings " + Itoa(s.unexplained) + " unexplained/" + Itoa(s.explained) + " explained→"
            + Itoa(n) + " unexplained/" + Itoa(s.explained) + " explained"
    ensures "findings " + FindingCount(s) + "→" + FindingCount(s.(explained := n))
         == "findings " + Itoa(s.unexplained) + " unexplained/" + Itoa(s.explained) + " explained→"
            + Itoa(s.unexplained) + " unexplained/" + Itoa(n) + " explained"
  {
    hide Itoa;
  }

  lemma NumeralShown(n: nat)
    ensures Shown(Itoa(n)) == Itoa(n) && Placeholder(Itoa(n)) == Itoa(n)
  {
    var s := Itoa(n);
    assert !IsSpace(s[0]) && !IsSpace(s[|s| - 1]);
    TrimFixed(s);
    hide Itoa, Trim;
  }

  /** Layers, and the repository a task is offered for. */
  lemma OneOfferMoved(s: Signature, layers: seq<string>, repository: string)
    ensures Joined(layers, ",") != Joined(s.layers, ",") ==>
              Change(s.(layers := layers), s)
              == Bounded("layers " + Shown(Joined(s.layers, ",")) + "→" + Shown(Joined(layers, ",")), 400)
    ensures s.offerPresent && !Blank(s.offerRepository) && !Blank(repository) && repository != s.offerRepository ==>
              Change(s.(offerRepository := repository), s)
              == Bounded("offer " + s.offerRepository + "→" + repository, 400)
    ensures !s.offerPresent && !Blank(s.offerRepository) ==>
              Change(s.(offerPresent := true), s) == Bounded("offer none→" + s.offerRepository, 400)
  {
    hide Blank, Bounded, Itoa, Note, Change, Joined;
    assert "layers" + " " == "layers " && "offer" + " " == "offer " && "offer " + "none" + "→" == "offer none→";
    BlankNothing();
    Unmoved(s);
    NoteShows("layers", Joined(s.layers, ","), Joined(layers, ","));
    NoteShows("offer", s.offerRepository, repository);
    NoteShows("offer", "", s.offerRepository);
    if Joined(layers, ",") != Joined(s.layers, ",") {
      OneLine(s.(layers := layers), s, "layers " + Shown(Joined(s.layers, ",")) + "→" + Shown(Joined(layers, ",")));
    }
    if s.offerPresent && !Blank(s.offerRepository) && !Blank(repository) && repository != s.offerRepository {
      OneLine(s.(offerRepository := repository), s, "offer " + s.offerRepository + "→" + repository);
    }
    if !s.offerPresent && !Blank(s.offerRepository) {
      OneLine(s.(offerPresent := true), s, "offer none→" + s.offerRepository);
    }
  }

  lemma PartOfEach(a: Signature, p: Signature)
    ensures Parts(p.(verdict := a.verdict), p) == Note("verdict", p.verdict, a.verdict)
    ensures Parts(p.(cause := a.cause), p) == Note("cause", p.cause, a.cause)
    ensures Parts(p.(completion := a.completion), p) == Note("completion", p.completion, a.completion)
    ensures Parts(p.(outcome := a.outcome), p) == Note("outcome", p.outcome, a.outcome)
    ensures Parts(p.(firing := a.firing), p) == Note("firing", Itoa(p.firing), Itoa(a.firing))
    ensures Parts(p.(resolved := a.resolved), p) == Note("resolved", Itoa(p.resolved), Itoa(a.resolved))
  {
    hide Blank, Itoa, Note, Joined, FindingCount, OfferLabel;
    Unmoved(p);
  }

  lemma SameShown(a: Signature, p: Signature)
    ensures FindingCount(p.(unexplained := a.unexplained, explained := a.explained)) == FindingCount(a)
    ensures OfferLabel(p.(offerPresent := a.offerPresent, offerRepository := a.offerRepository)) == OfferLabel(a)
  {
    hide Blank, Itoa;
  }

  /** Several fields moved: the line is what each would say alone, in this order. */
  lemma FieldByField(a: Signature, p: Signature)
    ensures var offer := p.(offerPresent := a.offerPresent, offerRepository := a.offerRepository);
            var counts := p.(unexplained := a.unexplained, explained := a.explained);
            Parts(a, p) == Parts(p.(verdict := a.verdict), p) + Parts(p.(cause := a.cause), p)
                           + Parts(p.(completion := a.completion), p) + Parts(p.(outcome := a.outcome), p)
                           + Parts(p.(layers := a.layers), p) + Parts(counts, p) + Parts(offer, p)
                           + Parts(p.(firing := a.firing), p) + Parts(p.(resolved := a.resolved), p)
  {
    var offer := p.(offerPresent := a.offerPresent, offerRepository := a.offerRepository);
    var counts := p.(unexplained := a.unexplained, explained := a.explained);
    SameShown(a, p);
    hide Blank, Itoa, Note, Joined, FindingCount, OfferLabel;
    Unmoved(p);
    PartOfEach(a, p);
    assert Parts(p.(layers := a.layers), p)
        == (if p.layers == a.layers then [] else Note("layers", Joined(p.layers, ","), Joined(a.layers, ",")));
    assert Parts(counts, p)
        == (if p.unexplained == a.unexplained && p.explained == a.explained then []
            else ["findings " + FindingCount(p) + "→" + FindingCount(a)]);
    assert Parts(offer, p)
        == (if p.offerPresent == a.offerPresent && p.offerRepository == a.offerRepository then []
            else Note("offer", OfferLabel(p), OfferLabel(a)));
  }

  lemma BlankNothing()
    ensures Blank("") && !Blank("none")
  {
    TrimFixed("");
    TrimFixed("none");
    hide Trim;
  }

  /** Each field of a signature is read from its own place in the reply. */
  lemma FieldsTell(r: Reply, v: string, n: nat)
    ensures Signed(r.(verdict := v)) == Signed(r).(verdict := Lower(Trim(v)))
    ensures Signed(r.(causeStatus := v)) == Signed(r).(cause := Lower(Trim(v)))
    ensures Signed(r.(completionStatus := v)) == Signed(r).(completion := Lower(Trim(v)))
    ensures Signed(r.(completionVerdict := v)) == Signed(r).(outcome := Lower(Trim(v)))
    ensures Signed(r.(taskRepository := v)) == Signed(r).(offerRepository := Lower(Trim(v)))
    ensures Signed(r.(taskTitle := v)) == Signed(r).(offerPresent := !Blank(v))
    ensures Signed(r.(firing := n)) == Signed(r).(firing := n)
    ensures Signed(r.(resolved := n)) == Signed(r).(resolved := n)
  {
    hide Trim, Lower, Sort, Entries, CountExplained;
  }

  /** One finding more is counted once, on its side. */
  lemma OneFindingMore(r: Reply, f: Finding)
    ensures var s, t := Signed(r), Signed(r.(findings := r.findings + [f]));
            t == if Lower(Trim(f.status)) == "explained" then s.(explained := s.explained + 1)
                 else s.(unexplained := s.unexplained + 1)
  {
    hide Trim, Lower, Sort, Entries;
    assert (r.findings + [f])[..|r.findings|] == r.findings;
  }

  lemma PartsTell(a: Signature, previous: Signature)
    ensures forall i :: 0 <= i < |Parts(a, previous)| ==> Telling(Parts(a, previous)[i])
    ensures Parts(a, previous) == [] <==> Unnoticed(a, previous)
  {
    hide Blank, Joined, OfferLabel, Itoa, FindingCount, Note;
    NoteTells("verdict", previous.verdict, a.verdict);
    NoteTells("cause", previous.cause, a.cause);
    NoteTells("completion", previous.completion, a.completion);
    NoteTells("outcome", previous.outcome, a.outcome);
    NoteTells("layers", Joined(previous.layers, ","), Joined(a.layers, ","));
    NoteTells("offer", OfferLabel(previous), OfferLabel(a));
    NoteTells("firing", Itoa(previous.firing), Itoa(a.firing));
    NoteTells("resolved", Itoa(previous.resolved), Itoa(a.resolved));
    ItoaInjective(previous.firing, a.firing);
    ItoaInjective(previous.resolved, a.resolved);
  }

  lemma ItoaInjective(m: nat, n: nat)
    ensures Itoa(m) == Itoa(n) <==> m == n
  {
    ItoaValue(m);
    ItoaValue(n);
  }

  /** The two signatures agree on everything the line can show: layer lists that read
      the same with commas between them, and offers that read the same, do not show. */
  predicate Unnoticed(a: Signature, b: Signature) {
    && a.verdict == b.verdict && a.cause == b.cause && a.completion == b.completion && a.outcome == b.outcome
    && (a.layers == b.layers || Joined(a.layers, ",") == Joined(b.layers, ","))
    && a.unexplained == b.unexplained && a.explained == b.explained
    && ((a.offerPresent == b.offerPresent && a.offerRepository == b.offerRepository) || OfferLabel(a) == OfferLabel(b))
    && a.firing == b.firing && a.resolved == b.resolved
  }

  /** Change reports that nothing moved exactly when the signatures agree on all it
      can show. Equal signatures always do. */
  lemma ChangeIsSilentExactly(a: Signature, previous: Signature)
    ensures Change(a, previous) == NOTHING_MOVED <==> Unnoticed(a, previous)
    ensures a == previous ==> Change(a, previous) == NOTHING_MOVED
  {
    hide Parts, Joined, Cut, Trim, Unnoticed;
    PartsTell(a, previous);
    var parts := Parts(a, previous);
    if parts != [] {
      JoinedBegins(parts, "; ");
      CutBegins(Joined(parts, "; "), 400);
    }
    EqualIsUnnoticed(a);
  }

  lemma EqualIsUnnoticed(a: Signature)
    ensures Unnoticed(a, a)
  {
  }

  // ---- Where the converse holds ----

  predicate CommaFree(parts: seq<string>) {
    forall i :: 0 <= i < |parts| ==> parts[i] != "" && ',' !in parts[i]
  }

  function LastComma(s: string): (at: int)
    ensures -1 <= at < |s|
    ensures at >= 0 ==> s[at] == ','
    ensures forall i :: at < i < |s| ==> s[i] != ','
  {
    if s == "" then -1 else if s[|s| - 1] == ',' then |s| - 1 else LastComma(s[..|s| - 1])
  }

  lemma LastPart(parts: seq<string>)
    requires CommaFree(parts) && parts != []
    ensures var all, last := Joined(parts, ","), parts[|parts| - 1];
            && LastComma(all) == |all| - |last| - 1
            && all[LastComma(all) + 1..] == last
            && (|parts| > 1 <==> LastComma(all) >= 0)
            && (|parts| > 1 ==> all[..LastComma(all)] == Joined(parts[..|parts| - 1], ","))
  {
    var all, last := Joined(parts, ","), parts[|parts| - 1];
    if |parts| == 1 {
      assert all == last;
    } else {
      var before := Joined(parts[..|parts| - 1], ",");
      assert all == before + "," + last;
      assert all[|before|] == ',';
      forall i | |before| < i < |all| ensures all[i] != ',' {
        assert all[i] == last[i - |before| - 1];
      }
    }
  }

  lemma SameJoined(a: seq<string>, b: seq<string>)
    requires CommaFree(a) && CommaFree(b) && a != [] && b != [] && Joined(a, ",") == Joined(b, ",")
    ensures a[|a| - 1] == b[|b| - 1] && (|a| > 1 <==> |b| > 1)
    ensures |a| > 1 ==> Joined(a[..|a| - 1], ",") == Joined(b[..|b| - 1], ",")
  {
    hide Joined, CommaFree;
    LastPart(a);
    LastPart(b);
    hide LastComma;
  }

  /** Layers without commas can be told from their joined text. */
  lemma {:induction false} JoinedInjective(a: seq<string>, b: seq<string>)
    requires CommaFree(a) && CommaFree(b) && Joined(a, ",") == Joined(b, ",")
    ensures a == b
    decreases |a|
  {
    hide Joined, CommaFree;
    if a == [] || b == [] {
      JoinedEmpty(a);
      JoinedEmpty(b);
    } else {
      SameJoined(a, b);
      if |a| > 1 {
        CommaFreeFront(a);
        CommaFreeFront(b);
        JoinedInjective(a[..|a| - 1], b[..|b| - 1]);
      }
      SameEnds(a, b);
    }
  }

  lemma CommaFreeFront(parts: seq<string>)
    requires CommaFree(parts) && parts != []
    ensures CommaFree(parts[..|parts| - 1])
  {
  }

  lemma SameEnds<T>(a: seq<T>, b: seq<T>)
    requires a != [] && b != [] && a[|a| - 1] == b[|b| - 1]
    requires if |a| > 1 then a[..|a| - 1] == b[..|b| - 1] else |b| == 1
    ensures a == b
  {
    assert a == a[..|a| - 1] + [a[|a| - 1]] && b == b[..|b| - 1] + [b[|b| - 1]];
  }

  lemma JoinedEmpty(parts: seq<string>)
    requires CommaFree(parts)
    ensures Joined(parts, ",") == "" <==> parts == []
  {
    if parts != [] {
      JoinedBegins(parts, ",");
    }
  }

  /** Which different offers read alike: two absent ones, or a task in no repository
      and one in a repository called "a task". */
  lemma OffersReadAlike(a: Signature, b: Signature)
    requires Tight(a.offerRepository) && Tight(b.offerRepository) && a.offerRepository != b.offerRepository
    ensures OfferLabel(a) == OfferLabel(b) <==>
              a.offerPresent == b.offerPresent
              && (!a.offerPresent || {a.offerRepository, b.offerRepository} == {"", "a task"})
  {
    TrimFixed(a.offerRepository);
    TrimFixed(b.offerRepository);
    TrimFixed("a task");
    TrimFixed("");
    hide Trim;
    assert "a task" != "";
  }

  lemma OfferAppears(a: Signature, b: Signature)
    requires a.offerPresent != b.offerPresent
    ensures OfferLabel(a) != OfferLabel(b)
  {
    TrimFixed("a task");
    TrimFixed("");
    hide Trim;
    assert "a task" != "";
  }

  /** Between signatures whose layers hold no comma, a silent change means equality
      except for offers that read alike. */
  lemma SilentMeansEqual(a: Signature, b: Signature)
    requires CommaFree(a.layers) && CommaFree(b.layers) && Tight(a.offerRepository) && Tight(b.offerRepository)
    ensures Change(a, b) == NOTHING_MOVED <==>
              a == b.(offerRepository := a.offerRepository)
              && (a.offerRepository == b.offerRepository || !a.offerPresent
                  || {a.offerRepository, b.offerRepository} == {"", "a task"})
  {
    hide Joined, OfferLabel, Change, Tight;
    ChangeIsSilentExactly(a, b);
    if Joined(a.layers, ",") == Joined(b.layers, ",") {
      JoinedInjective(a.layers, b.layers);
    }
    if a.offerPresent != b.offerPresent {
      OfferAppears(a, b);
    } else if a.offerRepository != b.offerRepository {
      OffersReadAlike(a, b);
    }
  }

  /** With a comma in a layer the change can stay silent over different layers. */
  lemma CommaHidesALayer(a: Signature, x: string, y: string)
    ensures var b, c := a.(layers := [x + "," + y]), a.(layers := [x, y]);
            b != c && Change(b, c) == NOTHING_MOVED
  {
    var b, c := a.(layers := [x + "," + y]), a.(layers := [x, y]);
    assert [x, y][..1] == [x];
    assert Joined(b.layers, ",") == x + "," + y == Joined(c.layers, ",");
    hide Joined;
    ChangeIsSilentExactly(b, c);
    assert |b.layers| != |c.layers|;
  }
}
