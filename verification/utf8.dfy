/** UTF-8 as RFC 3629, section 4, spells it, and the byte-level bounds built on it
    (internal/core/text.go, internal/coop/client.go). */
module Utf8 {
  import opened Bytes

  predicate Tail(b: Byte) {
    0x80 <= b <= 0xBF
  }

  /** utf8.RuneStart */
  predicate RuneStart(b: Byte) {
    !Tail(b)
  }

  /** The length of the well-formed character a text begins with, or zero. */
  function Rune(s: seq<Byte>): (n: nat)
    ensures n <= 4 && n <= |s|
    ensures n > 0 ==> RuneStart(s[0]) && forall i :: 0 < i < n ==> Tail(s[i])
  {
    if s == [] then 0
    else if s[0] <= 0x7F then 1
    else if |s| >= 2 && 0xC2 <= s[0] <= 0xDF && Tail(s[1]) then 2
    else if |s| >= 3 && Tail(s[1]) && Tail(s[2])
            && ((s[0] == 0xE0 && s[1] >= 0xA0) || 0xE1 <= s[0] <= 0xEC || (s[0] == 0xED && s[1] <= 0x9F)
                || 0xEE <= s[0] <= 0xEF)
    then 3
    else if |s| >= 4 && Tail(s[1]) && Tail(s[2]) && Tail(s[3])
            && ((s[0] == 0xF0 && s[1] >= 0x90) || 0xF1 <= s[0] <= 0xF3 || (s[0] == 0xF4 && s[1] <= 0x8F))
    then 4
    else 0
  }

  /** utf8.Valid */
  predicate Valid(s: seq<Byte>) {
    s == [] || (Rune(s) > 0 && Valid(s[Rune(s)..]))
  }

  /** A place where a text may be cut: its end, or the first byte of a character. */
  predicate Boundary(s: seq<Byte>, i: int) {
    0 <= i <= |s| && (i == |s| || RuneStart(s[i]))
  }

  lemma RuneOfPrefix(s: seq<Byte>, n: nat)
    requires Rune(s) <= n <= |s|
    ensures Rune(s) > 0 ==> Rune(s[..n]) == Rune(s)
  {
  }

  /** A valid text cut at a boundary is two valid texts. */
  lemma {:induction false} CutValid(s: seq<Byte>, i: nat)
    requires Valid(s) && Boundary(s, i)
    ensures Valid(s[..i]) && Valid(s[i..])
    decreases |s|
  {
    if i == 0 {
      assert s[..i] == [] && s[i..] == s;
    } else {
      var n := Rune(s);
      assert i >= n;
      var rest := s[n..];
      assert i < |s| ==> rest[i - n] == s[i];
      CutValid(rest, i - n);
      assert rest[..i - n] == s[..i][n..] && rest[i - n..] == s[i..];
      RuneOfPrefix(s, i);
    }
  }

  lemma RuneOfLonger(s: seq<Byte>, t: seq<Byte>)
    requires Rune(s) > 0
    ensures Rune(s + t) == Rune(s)
  {
    var all := s + t;
    assert forall i :: 0 <= i < |s| ==> all[i] == s[i];
  }

  lemma DropJoin(s: seq<Byte>, t: seq<Byte>, n: nat)
    requires n <= |s|
    ensures (s + t)[n..] == s[n..] + t
  {
  }

  /** Two valid texts side by side are one. */
  lemma {:induction false} JoinValid(s: seq<Byte>, t: seq<Byte>)
    requires Valid(s) && Valid(t)
    ensures Valid(s + t)
    decreases |s|
  {
    hide Rune;
    if s == [] {
      assert s + t == t;
    } else {
      var n := Rune(s);
      JoinValid(s[n..], t);
      DropJoin(s, t, n);
      RuneOfLonger(s, t);
    }
  }

  /** No character is longer than four bytes, so a boundary is never more than three
      bytes back. */
  lemma {:induction false} BoundaryBefore(s: seq<Byte>, i: nat) returns (b: nat)
    requires Valid(s) && i <= |s|
    ensures b <= i <= b + 3 && Boundary(s, b)
    decreases |s|
  {
    if i == |s| {
      b := i;
    } else {
      var n := Rune(s);
      if i < n {
        b := 0;
      } else {
        b := BoundaryBefore(s[n..], i - n);
        b := b + n;
        assert b < |s| ==> s[b] == s[n..][b - n];
      }
    }
  }

  /** Nor more than three bytes on. */
  lemma {:induction false} BoundaryAfter(s: seq<Byte>, i: nat) returns (b: nat)
    requires Valid(s) && i <= |s|
    ensures i <= b <= i + 3 && Boundary(s, b)
    ensures forall j :: i <= j < b ==> !Boundary(s, j)
    decreases |s|
  {
    if i == 0 || i == |s| {
      b := i;
    } else {
      var n := Rune(s);
      if i < n {
        b := n;
        if n < |s| {
          assert Rune(s[n..]) > 0 && s[n..][0] == s[n];
        }
      } else {
        var rest := s[n..];
        b := BoundaryAfter(rest, i - n);
        b := b + n;
        assert forall j :: i <= j < |s| ==> s[j] == rest[j - n];
        forall j | i <= j < b ensures !Boundary(s, j) {
          assert !Boundary(rest, j - n);
        }
      }
    }
  }

  /** Where a valid prefix of a valid text ends is a boundary. */
  lemma {:induction false} ValidPrefixEnds(s: seq<Byte>, i: nat)
    requires Valid(s) && i <= |s| && Valid(s[..i])
    ensures Boundary(s, i)
    decreases |s|
  {
    if i < |s| {
      if i == 0 {
        assert Rune(s) > 0;
      } else {
        var n := Rune(s);
        SamePrefixRune(s, i);
        assert s[..i][n..] == s[n..][..i - n];
        ValidPrefixEnds(s[n..], i - n);
        assert s[n..][i - n] == s[i];
      }
    }
  }

  lemma SamePrefixRune(s: seq<Byte>, i: nat)
    requires 0 < i <= |s| && Rune(s) > 0 && Rune(s[..i]) > 0
    ensures Rune(s[..i]) == Rune(s)
  {
  }

  // ---- White space ----

  /** The length of the white space character a text begins with, as unicode.IsSpace
      counts them, or zero. */
  function LeadingSpace(s: seq<Byte>): (n: nat)
    ensures n <= |s| && n <= 3
  {
    if |s| >= 1 && (0x09 <= s[0] <= 0x0D || s[0] == 0x20) then 1
    else if |s| >= 2 && s[..2] in [[0xC2, 0x85], [0xC2, 0xA0]] then 2
    else if |s| >= 3 && WideSpace(s[0], s[1], s[2]) then 3
    else 0
  }

  /** U+1680, U+2000 to U+200A, U+2028, U+2029, U+202F, U+205F and U+3000. */
  predicate WideSpace(a: Byte, b: Byte, c: Byte) {
    || (a == 0xE1 && b == 0x9A && c == 0x80)
    || (a == 0xE2 && b == 0x80 && (0x80 <= c <= 0x8A || c in [0xA8, 0xA9, 0xAF]))
    || (a == 0xE2 && b == 0x81 && c == 0x9F)
    || (a == 0xE3 && b == 0x80 && c == 0x80)
  }

  function TrailingSpace(s: seq<Byte>): (n: nat)
    ensures n <= |s| && n <= 3
  {
    var e := |s|;
    if e >= 1 && LeadingSpace(s[e - 1..]) == 1 then 1
    else if e >= 2 && LeadingSpace(s[e - 2..]) == 2 then 2
    else if e >= 3 && LeadingSpace(s[e - 3..]) == 3 then 3
    else 0
  }

  function TrimLeft(s: seq<Byte>): (r: seq<Byte>)
    ensures |r| <= |s| && r == s[|s| - |r|..] && LeadingSpace(r) == 0
    decreases |s|
  {
    var n := LeadingSpace(s);
    if n == 0 then s else TrimLeft(s[n..])
  }

  function TrimRight(s: seq<Byte>): (r: seq<Byte>)
    ensures |r| <= |s| && r == s[..|r|] && TrailingSpace(r) == 0
    decreases |s|
  {
    var n := TrailingSpace(s);
    if n == 0 then s else TrimRight(s[..|s| - n])
  }

  /** strings.TrimSpace */
  function TrimSpace(s: seq<Byte>): seq<Byte> {
    TrimRight(TrimLeft(s))
  }

  lemma {:induction false} TrimLeftValid(s: seq<Byte>)
    requires Valid(s)
    ensures Valid(TrimLeft(s))
    decreases |s|
  {
    var n := LeadingSpace(s);
    if n > 0 {
      assert Rune(s) == n;
      TrimLeftValid(s[n..]);
    }
  }

  lemma {:induction false} TrimRightValid(s: seq<Byte>)
    requires Valid(s)
    ensures Valid(TrimRight(s))
    decreases |s|
  {
    hide Valid, LeadingSpace, TrailingSpace, RuneStart;
    var n := TrailingSpace(s);
    if n > 0 {
      TrailingIsLeading(s);
      SpaceStarts(s[|s| - n..]);
      CutValid(s, |s| - n);
      TrimRightValid(s[..|s| - n]);
    }
  }

  lemma TrailingIsLeading(s: seq<Byte>)
    requires TrailingSpace(s) > 0
    ensures LeadingSpace(s[|s| - TrailingSpace(s)..]) > 0
  {
    hide LeadingSpace;
  }

  lemma TrimSpaceValid(s: seq<Byte>)
    requires Valid(s)
    ensures Valid(TrimSpace(s)) && |TrimSpace(s)| <= |s|
  {
    hide Valid, LeadingSpace, TrailingSpace;
    TrimLeftValid(s);
    TrimRightValid(TrimLeft(s));
  }

  lemma SpaceStarts(s: seq<Byte>)
    requires LeadingSpace(s) > 0
    ensures RuneStart(s[0])
  {
  }
}
