/** Sorting, and why a strict order leaves nothing to the order of the input. */
module Ordering {
  /** Go's < on strings: code point order and byte order agree on valid text. */
  predicate Less(a: string, b: string)
    decreases |a|
  {
    if b == "" then false
    else if a == "" then true
    else if a[0] != b[0] then a[0] < b[0]
    else Less(a[1..], b[1..])
  }

  lemma {:induction false} LessIrreflexive(a: string)
    ensures !Less(a, a)
  {
    if a != "" {
      LessIrreflexive(a[1..]);
    }
  }

  lemma {:induction false} LessTransitive(a: string, b: string, c: string)
    requires Less(a, b) && Less(b, c)
    ensures Less(a, c)
  {
    if a != "" && a[0] == b[0] && b[0] == c[0] {
      LessTransitive(a[1..], b[1..], c[1..]);
    }
  }

  lemma {:induction false} LessTotal(a: string, b: string)
    ensures a == b || Less(a, b) || Less(b, a)
  {
    if a != "" && b != "" && a[0] == b[0] {
      LessTotal(a[1..], b[1..]);
      assert a == [a[0]] + a[1..] && b == [b[0]] + b[1..];
    }
  }

  predicate Ascending<T>(s: seq<T>, less: (T, T) -> bool) {
    forall i, j :: 0 <= i < j < |s| ==> less(s[i], s[j])
  }

  /** A strict order that decides between any two of the items. */
  ghost predicate Decides<T>(items: seq<T>, less: (T, T) -> bool) {
    && (forall x :: x in items ==> !less(x, x))
    && (forall x, y :: x in items && y in items ==> x == y || less(x, y) || less(y, x))
    && (forall x, y, z :: x in items && y in items && z in items && less(x, y) && less(y, z) ==> less(x, z))
  }

  ghost predicate Unique<T>(s: seq<T>) {
    forall i, j :: 0 <= i < j < |s| ==> s[i] != s[j]
  }

  /** Insertion into an ascending list, after whatever the order does not put later. */
  function Insert<T>(s: seq<T>, x: T, less: (T, T) -> bool): seq<T> {
    if s == [] || !less(x, s[|s| - 1]) then s + [x] else Insert(s[..|s| - 1], x, less) + [s[|s| - 1]]
  }

  /** sort.SliceStable; slices.SortFunc and sort.Strings where no two items tie. */
  function Sort<T>(s: seq<T>, less: (T, T) -> bool): seq<T> {
    if s == [] then [] else Insert(Sort(s[..|s| - 1], less), s[|s| - 1], less)
  }

  lemma {:induction false} InsertMembers<T>(s: seq<T>, x: T, less: (T, T) -> bool)
    ensures multiset(Insert(s, x, less)) == multiset(s) + multiset{x}
    ensures |Insert(s, x, less)| == |s| + 1
  {
    if !(s == [] || !less(x, s[|s| - 1])) {
      var front := s[..|s| - 1];
      InsertMembers(front, x, less);
      assert s == front + [s[|s| - 1]];
    }
  }

  ghost predicate Within<T>(part: seq<T>, items: seq<T>) {
    forall x :: x in part ==> x in items
  }

  lemma DecidesPart<T>(items: seq<T>, part: seq<T>, less: (T, T) -> bool)
    requires Decides(items, less) && Within(part, items)
    ensures Decides(part, less)
  {
  }

  lemma Decided<T>(items: seq<T>, less: (T, T) -> bool, x: T, y: T)
    requires Decides(items, less) && x in items && y in items
    ensures !less(x, x) && (x == y || less(x, y) || less(y, x)) && !(less(x, y) && less(y, x))
  {
  }

  lemma Follows<T>(items: seq<T>, less: (T, T) -> bool, x: T, y: T, z: T)
    requires Decides(items, less) && x in items && y in items && z in items && less(x, y) && less(y, z)
    ensures less(x, z)
  {
  }

  lemma BeforeLast<T>(s: seq<T>, less: (T, T) -> bool, x: T)
    requires s != [] && Ascending(s, less) && x in s[..|s| - 1]
    ensures less(x, s[|s| - 1])
  {
    var k :| 0 <= k < |s| - 1 && s[..|s| - 1][k] == x;
    assert s[k] == x;
  }

  lemma {:induction false} InsertAscending<T>(s: seq<T>, x: T, less: (T, T) -> bool)
    requires Ascending(s, less) && x !in s && Decides(s + [x], less)
    ensures Ascending(Insert(s, x, less), less)
  {
    hide Decides;
    if s != [] {
      var front, last := s[..|s| - 1], s[|s| - 1];
      assert s == front + [last] && (s + [x])[|s|] == x && (s + [x])[|s| - 1] == last;
      Decided(s + [x], less, x, last);
      if !less(x, last) {
        forall i | 0 <= i < |s| ensures less(s[i], x) {
          assert (s + [x])[i] == s[i];
          if i < |s| - 1 { Follows(s + [x], less, s[i], last, x); }
        }
      } else {
        DecidesPart(s + [x], front + [x], less);
        InsertAscending(front, x, less);
        InsertMembers(front, x, less);
        AllBefore(s, x, less, Insert(front, x, less));
      }
    }
  }

  lemma AllBefore<T>(s: seq<T>, x: T, less: (T, T) -> bool, more: seq<T>)
    requires s != [] && Ascending(s, less) && less(x, s[|s| - 1]) && Ascending(more, less)
    requires multiset(more) == multiset(s[..|s| - 1]) + multiset{x}
    ensures Ascending(more + [s[|s| - 1]], less)
  {
    forall i | 0 <= i < |more| ensures less(more[i], s[|s| - 1]) {
      assert more[i] in multiset(more);
      if more[i] != x {
        assert more[i] in multiset(s[..|s| - 1]);
        BeforeLast(s, less, more[i]);
      }
    }
  }

  lemma SameMembers<T>(a: seq<T>, b: seq<T>)
    requires multiset(a) == multiset(b)
    ensures Within(a, b) && Within(b, a)
  {
    forall x ensures x in a <==> x in b {
      assert x in a <==> x in multiset(a);
    }
  }

  /** Sorting keeps the items and puts them in order. */
  lemma {:induction false} SortSorts<T>(s: seq<T>, less: (T, T) -> bool)
    requires Unique(s) && Decides(s, less)
    ensures multiset(Sort(s, less)) == multiset(s) && |Sort(s, less)| == |s|
    ensures Ascending(Sort(s, less), less)
  {
    hide Decides, Insert, Ascending;
    if s == [] {
      NothingAscends(less);
    } else {
      var front, last := s[..|s| - 1], s[|s| - 1];
      assert s == front + [last];
      DecidesPart(s, front, less);
      SortSorts(front, less);
      var sorted := Sort(front, less);
      assert last !in front;
      SameMembers(sorted, front);
      DecidesPart(s, sorted + [last], less);
      InsertMembers(sorted, last, less);
      InsertAscending(sorted, last, less);
    }
  }

  lemma NothingAscends<T>(less: (T, T) -> bool)
    ensures Ascending([], less)
  {
  }

  lemma Greatest<T>(a: seq<T>, less: (T, T) -> bool, x: T)
    requires a != [] && Ascending(a, less) && x in a
    ensures x == a[|a| - 1] || less(x, a[|a| - 1])
  {
    var i :| 0 <= i < |a| && a[i] == x;
  }

  /** Two ascending lists of the same items are one list. */
  lemma {:induction false} AscendingIsUnique<T>(a: seq<T>, b: seq<T>, less: (T, T) -> bool)
    requires Ascending(a, less) && Ascending(b, less) && Decides(a, less)
    requires Within(a, b) && Within(b, a)
    ensures a == b
    decreases |a|
  {
    hide Decides;
    if a == [] {
      assert forall i :: 0 <= i < |b| ==> b[i] in b;
    } else {
      assert a[0] in a;
      var m, n := |a| - 1, |b| - 1;
      assert a[m] in b && b[n] in a;
      Greatest(a, less, b[n]);
      Greatest(b, less, a[m]);
      Decided(a, less, a[m], b[n]);
      assert a == a[..m] + [a[m]] && b == b[..n] + [b[n]];
      Decided(a, less, a[m], a[m]);
      forall x | x in a[..m] ensures x in b[..n] { NotLast(a, less, x); }
      forall x | x in b[..n] ensures x in a[..m] { NotLast(b, less, x); }
      DecidesPart(a, a[..m], less);
      AscendingIsUnique(a[..m], b[..n], less);
    }
  }

  /** An item before the last of an ascending list is not the last. */
  lemma NotLast<T>(a: seq<T>, less: (T, T) -> bool, x: T)
    requires a != [] && Ascending(a, less) && x in a[..|a| - 1] && !less(a[|a| - 1], a[|a| - 1])
    ensures x != a[|a| - 1] && x in a
  {
    var k :| 0 <= k < |a| - 1 && a[..|a| - 1][k] == x;
    assert less(a[k], a[|a| - 1]);
  }

  /** The order of the input leaves no trace. */
  lemma SortIgnoresOrder<T>(a: seq<T>, b: seq<T>, less: (T, T) -> bool)
    requires Unique(a) && Unique(b) && Decides(a, less) && Within(a, b) && Within(b, a)
    ensures Sort(a, less) == Sort(b, less)
  {
    hide Decides, Sort, Ascending, Unique;
    DecidesPart(a, b, less);
    SortSorts(a, less);
    SortSorts(b, less);
    var x, y := Sort(a, less), Sort(b, less);
    SameMembers(x, a);
    SameMembers(y, b);
    DecidesPart(a, x, less);
    AscendingIsUnique(Sort(a, less), Sort(b, less), less);
  }

  lemma StringsDecide(items: seq<string>)
    ensures Decides(items, Less)
  {
    forall x | x in items ensures !Less(x, x) {
      LessIrreflexive(x);
    }
    forall x, y | x in items && y in items ensures x == y || Less(x, y) || Less(y, x) {
      LessTotal(x, y);
    }
    forall x, y, z | x in items && y in items && z in items && Less(x, y) && Less(y, z) ensures Less(x, z) {
      LessTransitive(x, y, z);
    }
  }
}
