/** Renaming the aliases of a decoded model object (renameModelAliases in
    internal/core/decode.go): the alias table is a Go map, read in no fixed order. */
module Aliases {
  import opened Options

  /** An alias and the canonical name it stands for; an empty name drops the field. */
  datatype Alias = Alias(name: string, canonical: string)

  function Renamed<V>(fields: map<string, V>, a: Alias): map<string, V> {
    if a.name !in fields then fields
    else
      var rest := fields - {a.name};
      if a.canonical == "" || a.canonical in rest then rest else rest[a.canonical := fields[a.name]]
  }

  function RenamedAll<V>(fields: map<string, V>, order: seq<Alias>): map<string, V> {
    if order == [] then fields else Renamed(RenamedAll(fields, order[..|order| - 1]), order[|order| - 1])
  }

  /** The loop over the table, in the order it happens to be read. */
  method RenameModelAliases<V>(fields: map<string, V>, order: seq<Alias>) returns (r: map<string, V>, found: bool)
    ensures r == RenamedAll(fields, order)
    ensures !found ==> r == fields
  {
    r, found := fields, false;
    for i := 0 to |order|
      invariant r == RenamedAll(fields, order[..i])
      invariant !found ==> r == fields
    {
      assert order[..i + 1][..i] == order[..i];
      var a := order[i];
      if a.name !in r { continue; }
      found := true;
      var value := r[a.name];
      r := r - {a.name};
      if a.canonical == "" { continue; }
      if a.canonical !in r { r := r[a.canonical := value]; }
    }
    assert order[..|order|] == order;
  }

  /** One reading of a map: each alias once. */
  ghost predicate Reading(order: seq<Alias>) {
    forall i, j :: 0 <= i < j < |order| ==> order[i].name != order[j].name
  }

  /** No alias stands for a name that is itself an alias. */
  ghost predicate Unchained(order: seq<Alias>) {
    forall a, b :: a in order && b in order ==> a.canonical != b.name
  }

  ghost predicate IsAlias(order: seq<Alias>, name: string) {
    exists a :: a in order && a.name == name
  }

  /** A value some alias of the object offers under a canonical name. */
  ghost predicate Offers<V(!new)>(fields: map<string, V>, order: seq<Alias>, name: string, value: V) {
    exists a :: a in order && a.canonical == name != "" && a.name in fields && fields[a.name] == value
  }

  ghost predicate Offered<V>(fields: map<string, V>, order: seq<Alias>, name: string) {
    exists a :: a in order && a.canonical == name != "" && a.name in fields
  }

  /** What renaming must make of an object: no alias left, every other field as it was,
      every missing canonical name one of the values its aliases hold. */
  ghost predicate Canonical<V(!new)>(fields: map<string, V>, order: seq<Alias>, r: map<string, V>) {
    forall name ::
      && (name in r <==> !IsAlias(order, name) && (name in fields || Offered(fields, order, name)))
      && (name in r && name in fields ==> r[name] == fields[name])
      && (name in r && name !in fields ==> Offers(fields, order, name, r[name]))
  }

  lemma IsAliasSnoc(order: seq<Alias>, a: Alias)
    ensures forall name :: IsAlias(order + [a], name) <==> IsAlias(order, name) || a.name == name
  {
    assert a in order + [a];
    forall name ensures IsAlias(order + [a], name) <==> IsAlias(order, name) || a.name == name {
      if IsAlias(order, name) {
        var x :| x in order && x.name == name;
        assert x in order + [a];
      }
    }
  }

  lemma OfferedSnoc<V(!new)>(fields: map<string, V>, order: seq<Alias>, a: Alias, name: string)
    ensures Offered(fields, order + [a], name)
       <==> Offered(fields, order, name) || (a.canonical == name != "" && a.name in fields)
    ensures forall value :: Offers(fields, order, name, value) ==> Offers(fields, order + [a], name, value)
    ensures a.canonical == name != "" && a.name in fields ==> Offers(fields, order + [a], name, fields[a.name])
  {
    assert a in order + [a];
    if Offered(fields, order, name) {
      var x :| x in order && x.canonical == name != "" && x.name in fields;
      assert x in order + [a];
    }
    forall value | Offers(fields, order, name, value) ensures Offers(fields, order + [a], name, value) {
      var x :| x in order && x.canonical == name != "" && x.name in fields && fields[x.name] == value;
      assert x in order + [a];
    }
  }

  lemma UnchainedFront(order: seq<Alias>, a: Alias)
    requires Unchained(order + [a]) && Reading(order + [a])
    ensures Unchained(order) && Reading(order) && !IsAlias(order, a.name)
    ensures forall x :: x in order ==> x.canonical != a.name && a.canonical != x.name
    ensures a.canonical != a.name && !IsAlias(order, a.canonical)
  {
    var all := order + [a];
    assert all[|order|] == a && a in all;
    forall x | x in order ensures x in all && x.name != a.name {
      var i :| 0 <= i < |order| && order[i] == x;
      assert all[i] == x;
    }
    assert forall i :: 0 <= i < |order| ==> all[i] == order[i];
  }

  /** Before its turn an alias is in the object exactly when it came with it. */
  lemma StillThere<V(!new)>(fields: map<string, V>, order: seq<Alias>, a: Alias, before: map<string, V>)
    requires Canonical(fields, order, before) && !IsAlias(order, a.name)
    requires forall x :: x in order ==> x.canonical != a.name
    ensures a.name in before <==> a.name in fields
    ensures a.name in fields ==> before[a.name] == fields[a.name]
  {
  }

  lemma OneMoreName<V(!new)>(fields: map<string, V>, order: seq<Alias>, a: Alias, before: map<string, V>, name: string)
    requires Canonical(fields, order, before) && Unchained(order + [a]) && Reading(order + [a])
    ensures var r, all := Renamed(before, a), order + [a];
            && (name in r <==> !IsAlias(all, name) && (name in fields || Offered(fields, all, name)))
            && (name in r && name in fields ==> r[name] == fields[name])
            && (name in r && name !in fields ==> Offers(fields, all, name, r[name]))
  {
    UnchainedFront(order, a);
    StillThere(fields, order, a, before);
    IsAliasSnoc(order, a);
    OfferedSnoc(fields, order, a, name);
    hide Unchained, Reading, IsAlias, Offered, Offers;
  }

  /** Canonical spellings win, untouched fields survive, and no alias is left. */
  lemma {:induction false} RenamedIsCanonical<V(!new)>(fields: map<string, V>, order: seq<Alias>)
    requires Reading(order) && Unchained(order)
    ensures Canonical(fields, order, RenamedAll(fields, order))
    decreases |order|
  {
    hide Renamed, IsAlias, Offered, Offers, Unchained, Reading;
    if order == [] {
      NothingRenamed(fields);
    } else {
      var front, a := order[..|order| - 1], order[|order| - 1];
      assert order == front + [a];
      UnchainedFront(front, a);
      RenamedIsCanonical(fields, front);
      var r := RenamedAll(fields, order);
      forall name
        ensures name in r <==> !IsAlias(order, name) && (name in fields || Offered(fields, order, name))
        ensures name in r && name in fields ==> r[name] == fields[name]
        ensures name in r && name !in fields ==> Offers(fields, order, name, r[name])
      {
        OneMoreName(fields, front, a, RenamedAll(fields, front), name);
      }
    }
  }

  lemma NothingRenamed<V(!new)>(fields: map<string, V>)
    ensures Canonical(fields, [], fields)
  {
  }

  // ---- Any order of reading ----

  /** Two aliases of one missing name that the object both holds hold one value. */
  ghost predicate Unambiguous<V>(fields: map<string, V>, order: seq<Alias>) {
    forall a, b :: (a in order && b in order && a.canonical == b.canonical != "" && a.name in fields && b.name in fields
                    && a.canonical !in fields) ==> fields[a.name] == fields[b.name]
  }

  /** Another reading of the same table. */
  ghost predicate SameTable(a: seq<Alias>, b: seq<Alias>) {
    Reading(a) && Reading(b) && forall x :: x in a <==> x in b
  }

  lemma CanonicalIsUnique<V(!new)>(fields: map<string, V>, a: seq<Alias>, b: seq<Alias>, r: map<string, V>, s: map<string, V>)
    requires SameTable(a, b) && Canonical(fields, a, r) && Canonical(fields, b, s) && Unambiguous(fields, a)
    ensures r == s
  {
    forall name ensures (name in r <==> name in s) && (name in r ==> r[name] == s[name]) {
      assert IsAlias(a, name) <==> IsAlias(b, name);
      assert Offered(fields, a, name) <==> Offered(fields, b, name);
      if name in r && name !in fields {
        assert Offers(fields, a, name, r[name]) && Offers(fields, b, name, s[name]);
      }
    }
  }

  lemma SameTableUnchained(a: seq<Alias>, b: seq<Alias>)
    requires SameTable(a, b) && Unchained(a)
    ensures Unchained(b)
  {
  }

  lemma {:induction false} SetStays<V>(fields: map<string, V>, order: seq<Alias>, name: string)
    requires name in fields && !IsAlias(order, name)
    ensures name in RenamedAll(fields, order) && RenamedAll(fields, order)[name] == fields[name]
    decreases |order|
  {
    if order != [] {
      var front := order[..|order| - 1];
      assert forall x :: x in front ==> x in order;
      SetStays(fields, front, name);
      assert order[|order| - 1] in order;
    }
  }

  lemma {:induction false} RenamedConcat<V>(fields: map<string, V>, a: seq<Alias>, b: seq<Alias>)
    ensures RenamedAll(fields, a + b) == RenamedAll(RenamedAll(fields, a), b)
    decreases |b|
  {
    hide Renamed;
    if b == [] {
      assert a + b == a;
    } else {
      assert (a + b)[..|a + b| - 1] == a + b[..|b| - 1];
      RenamedConcat(fields, a, b[..|b| - 1]);
    }
  }

  /** The alias read first is the one whose value stays. */
  lemma FirstWins<V>(fields: map<string, V>, order: seq<Alias>, a: Alias) returns (first: seq<Alias>)
    requires Reading(order) && Unchained(order) && a in order
    requires a.canonical != "" && a.name in fields && a.canonical !in fields
    ensures SameTable(order, first)
    ensures a.canonical in RenamedAll(fields, first) && RenamedAll(fields, first)[a.canonical] == fields[a.name]
  {
    var i :| 0 <= i < |order| && order[i] == a;
    var rest := order[..i] + order[i + 1..];
    first := [a] + rest;
    MovedFirst(order, i);
    RenamedConcat(fields, [a], rest);
    assert [a][..0] == [] && RenamedAll(fields, [a]) == Renamed(fields, a);
    assert !IsAlias(rest, a.canonical) by {
      assert forall x :: x in rest ==> x in order;
    }
    SetStays(Renamed(fields, a), rest, a.canonical);
  }

  lemma MovedFirst(order: seq<Alias>, i: nat)
    requires Reading(order) && i < |order|
    ensures SameTable(order, [order[i]] + (order[..i] + order[i + 1..]))
  {
    var rest := order[..i] + order[i + 1..];
    var first := [order[i]] + rest;
    forall j, k | 0 <= j < k < |first| ensures first[j].name != first[k].name {
      assert j > 0 ==> first[j] == if j - 1 < i then order[j - 1] else order[j];
      assert first[k] == if k - 1 < i then order[k - 1] else order[k];
    }
    forall x ensures x in order <==> x in first {
      if x in order {
        var k :| 0 <= k < |order| && order[k] == x;
        assert k < i ==> first[k + 1] == x;
        assert k > i ==> first[k] == x;
        assert k == i ==> first[0] == x;
      }
    }
  }

  /** Every order of reading the table gives the same object exactly when no two
      aliases the object holds differ about one name it lacks. */
  lemma RenamingIsConfluentExactly<V(!new)>(fields: map<string, V>, order: seq<Alias>)
    requires Reading(order) && Unchained(order)
    ensures (forall other :: SameTable(order, other) ==> RenamedAll(fields, other) == RenamedAll(fields, order))
       <==> Unambiguous(fields, order)
  {
    hide RenamedAll, Canonical;
    RenamedIsCanonical(fields, order);
    if Unambiguous(fields, order) {
      forall other | SameTable(order, other) ensures RenamedAll(fields, other) == RenamedAll(fields, order) {
        SameTableUnchained(order, other);
        RenamedIsCanonical(fields, other);
        CanonicalIsUnique(fields, order, other, RenamedAll(fields, order), RenamedAll(fields, other));
      }
    } else {
      var a, b :| a in order && b in order && a.canonical == b.canonical != "" && a.name in fields && b.name in fields
                  && a.canonical !in fields && fields[a.name] != fields[b.name];
      var one := FirstWins(fields, order, a);
      var two := FirstWins(fields, order, b);
      assert RenamedAll(fields, one) != RenamedAll(fields, two);
    }
  }

  lemma {:induction false} NothingToRename<V>(fields: map<string, V>, order: seq<Alias>)
    requires forall a :: a in order ==> a.name !in fields
    ensures RenamedAll(fields, order) == fields
  {
    if order != [] {
      var front := order[..|order| - 1];
      assert forall x :: x in front ==> x in order;
      NothingToRename(fields, front);
      assert order[|order| - 1] in order;
    }
  }

  /** Renaming again, in any order, changes nothing. */
  lemma RenamingTwice<V(!new)>(fields: map<string, V>, order: seq<Alias>, again: seq<Alias>)
    requires SameTable(order, again) && Unchained(order)
    ensures RenamedAll(RenamedAll(fields, order), again) == RenamedAll(fields, order)
  {
    hide RenamedAll;
    RenamedIsCanonical(fields, order);
    forall a | a in again ensures a.name !in RenamedAll(fields, order) {
      assert a in order && IsAlias(order, a.name);
    }
    NothingToRename(RenamedAll(fields, order), again);
  }

  /** The table of a grant promotion offer, where two aliases share a name. */
  const GRANT_TABLE := [
    Alias("action", "action_id"), Alias("verified_runs", "verified_successes"),
    Alias("successful_runs", "verified_successes"), Alias("requested_rung", "rung"), Alias("reason", "rationale")]

  lemma GrantTableReads()
    ensures Reading(GRANT_TABLE) && Unchained(GRANT_TABLE)
  {
    hide Reading;
    var t := GRANT_TABLE;
    assert t[0].name[0] == 'a' && t[4].name[0] == 'r';
    forall a | a in t ensures |a.name| in {6, 13, 14, 15} && |a.canonical| in {4, 9, 18} {}
    ApartByLength(t);
  }

  lemma ApartByLength(t: seq<Alias>)
    requires |t| == 5 && |t[0].name| == |t[4].name| == 6 && |t[1].name| == 13 && |t[2].name| == 15 && |t[3].name| == 14
    requires t[0].name[0] != t[4].name[0]
    ensures Reading(t)
  {
  }

  /** An offer that spells the count both wrong ways, and not the right one, decodes
      to whichever the map yields first: some other reading gives another object
      unless the two counts agree. */
  lemma GrantTableIsAmbiguous<V(!new)>(fields: map<string, V>) returns (other: seq<Alias>)
    requires "verified_runs" in fields && "successful_runs" in fields && "verified_successes" !in fields
    requires fields["verified_runs"] != fields["successful_runs"]
    ensures SameTable(GRANT_TABLE, other) && RenamedAll(fields, other) != RenamedAll(fields, GRANT_TABLE)
  {
    hide RenamedAll, Reading, Unchained;
    GrantTableReads();
    var a, b := GRANT_TABLE[1], GRANT_TABLE[2];
    assert a in GRANT_TABLE && b in GRANT_TABLE;
    var one := FirstWins(fields, GRANT_TABLE, a);
    var two := FirstWins(fields, GRANT_TABLE, b);
    other := if RenamedAll(fields, one) != RenamedAll(fields, GRANT_TABLE) then one else two;
  }
}
