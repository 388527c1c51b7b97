/** What a round's rows pass through before they are kept: SanitizeEvidence,
    SanitizeCoverage and SanitizeFindings (internal/decision/decision.go). */
module Sanitize {
  import opened Options
  import opened Text
  import opened Investigation
  import opened Carry
  import opened LastWords

  const MAX_EVIDENCE := 50
  const MAX_COVERAGE := 30
  const MAX_FINDINGS := 20

  /** The layers some claim is known for; the status is compared as written, so one
      that Validate lower-cased to accept may still be dropped here. */
  const LAYERS := {
    "task", "hardware", "change", "host", "runtime", "scheduler", "workload", "dependency", "application", "slo"}
  const COVERAGE_STATUSES := {"healthy", "degraded", "unhealthy", "unknown", "not_applicable"}
  const FINDING_STATUSES := {"unexplained", "explained", "expected", "out_of_scope"}

  /** The bodies of the three loops: what a row becomes, or nothing when it is
      dropped. An accepted row has a claim id, so its claim is not asked for. */
  function CleanEvidence(e: Evidence): Option<Evidence> {
    if Blank(e.claimId) || Blank(e.sourceName)
       || (Blank(e.observation) && forall k :: k in e.dimensions ==> Blank(k))
    then None
    else Some(e.(id := Bounded(e.id, 120)))
  }

  function CleanCoverage(c: Coverage): Option<Coverage> {
    var layer, written := Bounded(c.layer, 100), Bounded(c.status, 40);
    var status := if written == "covered" then "unknown" else written;
    if layer in LAYERS && status in COVERAGE_STATUSES then Some(c.(layer := layer, status := status)) else None
  }

  function CleanFinding(f: Finding): Option<Finding> {
    var what, status := Bounded(f.what, 400), Lower(Bounded(f.status, 40));
    if what == "" || status !in FINDING_STATUSES then None
    else Some(f.(key := Bounded(f.key, 120), what := what, status := status))
  }

  function FirstRows<T>(rows: seq<T>, limit: nat): seq<T> {
    if |rows| <= limit then rows else rows[..limit]
  }

  function Cleaned<T>(rows: seq<T>, clean: T -> Option<T>): seq<T> {
    if rows == [] then []
    else
      Cleaned(rows[..|rows| - 1], clean)
      + match clean(rows[|rows| - 1]) case None => [] case Some(row) => [row]
  }

  /** Rows past the limit are not looked at. */
  function Sanitized<T>(rows: seq<T>, limit: nat, clean: T -> Option<T>): seq<T> {
    Cleaned(FirstRows(rows, limit), clean)
  }

  /** The loop of each of the three. */
  method SanitizeRows<T>(items: seq<T>, limit: nat, clean: T -> Option<T>) returns (result: seq<T>)
    ensures result == Sanitized(items, limit, clean)
  {
    result := [];
    var n := if |items| <= limit then |items| else limit;
    for i := 0 to n
      invariant result == Cleaned(items[..i], clean)
    {
      assert items[..i + 1][..i] == items[..i];
      match clean(items[i])
      case None =>
      case Some(row) => result := result + [row];
    }
    assert items[..n] == FirstRows(items, limit);
  }

  // ---- Rows the sanitiser leaves as they are ----

  ghost predicate Fixed<T(!new)>(rows: seq<T>, clean: T -> Option<T>) {
    forall x :: x in rows ==> clean(x) == Some(x)
  }

  lemma {:induction false} FixedCleaned<T(!new)>(rows: seq<T>, clean: T -> Option<T>)
    requires Fixed(rows, clean)
    ensures Cleaned(rows, clean) == rows
  {
    if rows != [] {
      assert rows[|rows| - 1] in rows;
      FixedCleaned(rows[..|rows| - 1], clean);
    }
  }

  lemma {:induction false} CleanedConcat<T>(a: seq<T>, b: seq<T>, clean: T -> Option<T>)
    ensures Cleaned(a + b, clean) == Cleaned(a, clean) + Cleaned(b, clean)
    decreases |b|
  {
    if b == [] {
      assert a + b == a;
    } else {
      assert (a + b)[..|a + b| - 1] == a + b[..|b| - 1];
      CleanedConcat(a, b[..|b| - 1], clean);
    }
  }

  lemma {:induction false} CleanedMembers<T(!new)>(rows: seq<T>, clean: T -> Option<T>)
    ensures forall x :: x in Cleaned(rows, clean) ==> exists y :: y in rows && clean(y) == Some(x)
  {
    if rows != [] {
      CleanedMembers(rows[..|rows| - 1], clean);
      assert rows[|rows| - 1] in rows;
      assert forall y :: y in rows[..|rows| - 1] ==> y in rows;
    }
  }

  /** How much of a limit is left behind the rows ahead. */
  function Room<T>(limit: nat, ahead: seq<T>): nat {
    if |ahead| >= limit then 0 else limit - |ahead|
  }

  /** Rows already clean stand ahead of a round's own and use up its limit. */
  lemma SanitizedBehind<T(!new)>(ahead: seq<T>, own: seq<T>, limit: nat, clean: T -> Option<T>)
    requires Fixed(ahead, clean)
    ensures Sanitized(ahead + own, limit, clean)
         == FirstRows(ahead, limit) + Cleaned(FirstRows(own, Room(limit, ahead)), clean)
  {
    hide Cleaned;
    var first, rest := FirstRows(ahead, limit), FirstRows(own, Room(limit, ahead));
    assert FirstRows(ahead + own, limit) == first + rest;
    CleanedConcat(first, rest, clean);
    assert forall x :: x in first ==> x in ahead;
    FixedCleaned(first, clean);
  }

  // ---- A round's own rows as they are read ----

  /** Each row the sanitiser would take, and whether it stands within the room. */
  function Uttered<T>(own: seq<T>, room: nat, clean: T -> Option<T>): seq<Utterance<T>> {
    if own == [] then []
    else
      Uttered(own[..|own| - 1], room, clean)
      + match clean(own[|own| - 1]) case None => [] case Some(row) => [if |own| - 1 < room then Read(row) else Unread(row)]
  }

  lemma {:induction false} UtteredRows<T>(own: seq<T>, room: nat, clean: T -> Option<T>)
    ensures Rows(Uttered(own, room, clean)) == Cleaned(own, clean)
    ensures ReadRows(Uttered(own, room, clean)) == Cleaned(FirstRows(own, room), clean)
  {
    if own != [] {
      var front, last := own[..|own| - 1], own[|own| - 1];
      UtteredRows(front, room, clean);
      assert |own| <= room ==> FirstRows(front, room) == front;
      assert |own| > room ==> FirstRows(own, room) == FirstRows(front, room);
      if clean(last).Some? {
        var u := if |own| - 1 < room then Read(clean(last).value) else Unread(clean(last).value);
        OneUtterance(u);
        RowsConcat(Uttered(front, room, clean), [u]);
      } else {
        assert Uttered(own, room, clean) == Uttered(front, room, clean);
      }
      hide Rows, ReadRows;
    }
  }

  lemma OneUtterance<T>(u: Utterance<T>)
    ensures Rows([u]) == if u.Returned? then [] else [u.row]
    ensures ReadRows([u]) == if u.Unread? then [] else [u.row]
  {
    assert [u][..0] == [];
  }

  // ---- Cleaning twice ----

  predicate Plain(s: string) {
    0 < |s| <= 40 && forall i :: 0 <= i < |s| ==> 'a' <= s[i] <= 'z' || s[i] == '_'
  }

  lemma PlainText(s: string)
    requires Plain(s)
    ensures Tight(s) && Lower(s) == s && ByteLen(s) <= 40 && s != ""
  {
    AsciiBytes(s);
    hide ByteLen;
  }

  lemma PlainWords(s: string)
    requires s in LAYERS || s in COVERAGE_STATUSES || s in FINDING_STATUSES
    ensures Plain(s)
  {
  }

  /** A kept layer is its own lower-cased and trimmed form: one spelling to a layer. */
  lemma CleanCoverageTwice(c: Coverage)
    ensures CleanCoverage(c).Some? ==>
              var kept := CleanCoverage(c).value;
              CleanCoverage(kept) == Some(kept) && kept.layer != "" && Lower(Trim(kept.layer)) == kept.layer
  {
    hide Bounded, Trim, Tight, Lower, ByteLen;
    if CleanCoverage(c).Some? {
      var kept := CleanCoverage(c).value;
      assert kept.layer in LAYERS && kept.status in COVERAGE_STATUSES;
      PlainWords(kept.layer);
      PlainWords(kept.status);
      PlainText(kept.layer);
      PlainText(kept.status);
      BoundedFixed(kept.layer, 100);
      BoundedFixed(kept.status, 40);
      TrimFixed(kept.layer);
    }
  }

  lemma CleanFindingTwice(f: Finding)
    ensures CleanFinding(f).Some? ==> CleanFinding(CleanFinding(f).value) == CleanFinding(f)
  {
    hide Bounded, Trim, Tight, Lower, ByteLen;
    if CleanFinding(f).Some? {
      var kept := CleanFinding(f).value;
      PlainWords(kept.status);
      PlainText(kept.status);
      BoundedFixed(kept.status, 40);
      BoundedTwice(f.key, 120);
      BoundedTwice(f.what, 400);
    }
  }

  /** An accepted evidence row comes through unchanged or not at all. */
  lemma CleanEvidenceOnce(e: Evidence)
    requires Tight(e.id) && ByteLen(e.id) <= MAX_ID_BYTES
    ensures CleanEvidence(e) == None || CleanEvidence(e) == Some(e)
  {
    hide Blank, Bounded, Tight, ByteLen;
    BoundedFixed(e.id, 120);
  }

  // ---- What the sanitiser drops of what Validate accepts ----

  /** Evidence whose every dimension is blank and that observed nothing. */
  lemma AcceptedEvidenceIsKept(e: Evidence)
    requires ValidEvidence(e) && Tight(e.id) && ByteLen(e.id) <= 120
    ensures CleanEvidence(e) == Some(e) <==> !Blank(e.observation) || exists k :: k in e.dimensions && !Blank(k)
    ensures CleanEvidence(e) == Some(e) || CleanEvidence(e) == None
  {
    hide Blank, Bounded, Tight, ByteLen;
    BoundedFixed(e.id, 120);
  }

  /** Coverage of a layer no claim knows, or whose status has a capital letter. */
  lemma AcceptedCoverageIsKept(c: Coverage)
    requires ValidCoverage(c)
    ensures CleanCoverage(c).Some? <==> Bounded(c.layer, 100) in LAYERS && Trim(c.status) == Lower(Trim(c.status))
    ensures match CleanCoverage(c)
            case None => true
            case Some(kept) =>
              kept == c.(layer := Bounded(c.layer, 100),
                         status := if Trim(c.status) == "covered" then "unknown" else Trim(c.status))
  {
    hide Trim, Lower, ByteLen;
    StatusUncut(c.status);
  }

  /** No finding: a valid finding is always kept, its sentence cut and its status in
      small letters. */
  lemma AcceptedFindingIsKept(f: Finding)
    requires ValidFinding(f)
    ensures CleanFinding(f) == Some(f.(key := Bounded(f.key, 120), what := Bounded(f.what, 400), status := Lower(Trim(f.status))))
    ensures Bounded(f.what, 400) != "" && Bounded(f.what, 400)[0] == Trim(f.what)[0]
  {
    hide Lower, ByteLen, Trim;
    StatusUncut(f.status);
    TrimIsTight(f.what);
    TrimTwice(f.what);
    CutBegins(Trim(f.what), 400);
  }

  /** A known status is too short to be cut. */
  lemma StatusUncut(status: string)
    requires Lower(Trim(status)) in COVERAGE_STATUSES + FINDING_STATUSES + {"covered"}
    ensures Bounded(status, 40) == Trim(status)
  {
    hide Trim, Lower, ByteLen;
    var known := Lower(Trim(status));
    assert Plain(known);
    PlainText(known);
    ByteLenLower(Trim(status));
  }
}
