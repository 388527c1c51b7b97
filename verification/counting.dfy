/** Sizes of sets and of sequences without repetition. */
module Counting {
  function Least(a: int, b: int): int {
    if a <= b then a else b
  }

  predicate Distinct<T(==)>(items: seq<T>) {
    forall i, j :: 0 <= i < j < |items| ==> items[i] != items[j]
  }

  lemma SubsetSize<T>(a: set<T>, b: set<T>)
    requires a <= b
    ensures |a| <= |b|
  {
    assert b == a + (b - a);
  }

  lemma {:induction false} Elements<T>(items: seq<T>)
    ensures |set x | x in items| <= |items|
    ensures Distinct(items) ==> |set x | x in items| == |items|
  {
    if items != [] {
      var front, last := items[..|items| - 1], items[|items| - 1];
      Elements(front);
      assert (set x | x in items) == (set x | x in front) + {last};
      assert Distinct(items) ==> last !in front;
    }
  }

  /** Items without repetition, all among others, are no more than those. */
  lemma NoMoreThan<T>(few: seq<T>, many: seq<T>)
    requires Distinct(few) && forall x :: x in few ==> x in many
    ensures |few| <= |many|
  {
    Elements(few);
    Elements(many);
    SubsetSize(set x | x in few, set x | x in many);
  }
}
