/** Text and its bytes: UTF-8 as RFC 3629, section 3, builds it from code points, and why
    bounding text by characters is bounding its bytes (internal/core/text.go). */
module Encoding {
  import opened Bytes
  import opened Utf8
  import opened Bounding
  import Text

  /** The bytes of one character. */
  function Encoded(c: char): (r: seq<Byte>)
    ensures |r| == Text.CharBytes(c)
  {
    var n := c as int;
    if n < 0x80 then [n as Byte]
    else if n < 0x800 then [(0xC0 + n / 64) as Byte, (0x80 + n % 64) as Byte]
    else if n < 0x10000 then [(0xE0 + n / 4096) as Byte, (0x80 + n / 64 % 64) as Byte, (0x80 + n % 64) as Byte]
    else
      [(0xF0 + n / 262144) as Byte, (0x80 + n / 4096 % 64) as Byte, (0x80 + n / 64 % 64) as Byte, (0x80 + n % 64) as Byte]
  }

  function Encode(s: string): (r: seq<Byte>)
    ensures |r| == Text.ByteLen(s)
  {
    if s == "" then [] else Encoded(s[0]) + Encode(s[1..])
  }

  /** The character a well-formed sequence stands for. */
  function Decoded(s: seq<Byte>): char
    requires Rune(s) > 0
  {
    var n := Rune(s);
    if n == 1 then (s[0] as int) as char
    else if n == 2 then ((s[0] as int - 0xC0) * 64 + (s[1] as int - 0x80)) as char
    else if n == 3 then ((s[0] as int - 0xE0) * 4096 + (s[1] as int - 0x80) * 64 + (s[2] as int - 0x80)) as char
    else ((s[0] as int - 0xF0) * 262144 + (s[1] as int - 0x80) * 4096 + (s[2] as int - 0x80) * 64 + (s[3] as int - 0x80)) as char
  }

  lemma RuneOfCharacter(c: char)
    ensures Rune(Encoded(c)) == |Encoded(c)|
  {
  }

  lemma Digits(a: nat, b: nat, c: nat, d: nat)
    requires b < 64 && c < 64 && d < 64
    ensures var n := a * 262144 + b * 4096 + c * 64 + d;
            n / 262144 == a && n / 4096 == a * 64 + b && n / 64 == a * 4096 + b * 64 + c
            && n % 64 == d && n / 64 % 64 == c && n / 4096 % 64 == b
  {
    var n := a * 262144 + b * 4096 + c * 64 + d;
    assert n == (a * 4096 + b * 64 + c) * 64 + d;
    assert n == (a * 64 + b) * 4096 + (c * 64 + d);
    assert n == a * 262144 + (b * 4096 + c * 64 + d);
  }

  lemma CharacterOfRune(s: seq<Byte>)
    requires Rune(s) > 0
    ensures Encoded(Decoded(s)) == s[..Rune(s)]
  {
    if Rune(s) < 4 {
      ShortCharacter(s);
    } else {
      var a, b, c, d := s[0] as int - 0xF0, s[1] as int - 0x80, s[2] as int - 0x80, s[3] as int - 0x80;
      Digits(a, b, c, d);
      var n := a * 262144 + b * 4096 + c * 64 + d;
      assert 0x10000 <= n < 0x110000;
      assert Decoded(s) == n as char;
    }
  }

  lemma ShortCharacter(s: seq<Byte>)
    requires 0 < Rune(s) < 4
    ensures Encoded(Decoded(s)) == s[..Rune(s)]
  {
    match Rune(s)
    case 1 =>
    case 2 => Digits(0, 0, s[0] as int - 0xC0, s[1] as int - 0x80);
    case _ => Digits(0, s[0] as int - 0xE0, s[1] as int - 0x80, s[2] as int - 0x80);
  }

  lemma RuneAtFront(c: char, more: seq<Byte>)
    ensures Rune(Encoded(c) + more) == |Encoded(c)| > 0
  {
    RuneOfCharacter(c);
    hide Rune, Encoded;
    RuneOfLonger(Encoded(c), more);
  }

  /** Bytes are valid exactly when they are the encoding of some text. */
  lemma ValidIsEncoded(s: seq<Byte>)
    ensures Valid(s) <==> exists text: string :: Encode(text) == s
  {
    if Valid(s) {
      var text := SomeText(s);
    }
    forall text: string | Encode(text) == s ensures Valid(s) {
      EncodeIsValid(text);
    }
  }

  lemma {:induction false} EncodeIsValid(text: string)
    ensures Valid(Encode(text))
  {
    hide Rune, Encoded;
    if text != "" {
      RuneAtFront(text[0], Encode(text[1..]));
      assert Encode(text)[|Encoded(text[0])|..] == Encode(text[1..]);
      EncodeIsValid(text[1..]);
    }
  }

  lemma {:induction false} SomeText(s: seq<Byte>) returns (text: string)
    requires Valid(s)
    ensures Encode(text) == s
    decreases |s|
  {
    hide Rune, Encoded, Decoded;
    if s == [] {
      text := "";
    } else {
      var rest := SomeText(s[Rune(s)..]);
      CharacterOfRune(s);
      text := [Decoded(s)] + rest;
      assert text[1..] == rest;
      assert s == s[..Rune(s)] + s[Rune(s)..];
    }
  }

  lemma {:induction false} EncodeConcat(a: string, b: string)
    ensures Encode(a + b) == Encode(a) + Encode(b)
    decreases |a|
  {
    hide Encoded;
    if a == "" {
      assert a + b == b;
    } else {
      assert (a + b)[1..] == a[1..] + b;
      EncodeConcat(a[1..], b);
    }
  }

  lemma EncodeOne(c: char)
    ensures Encode([c]) == Encoded(c)
  {
    assert Encode([c][1..]) == [];
  }

  // ---- White space ----

  lemma WholeOf(n: nat)
    ensures n == n / 64 * 64 + n % 64 && n / 64 == n / 4096 * 64 + n / 64 % 64
  {
  }

  lemma SpaceEncoded(c: char)
    ensures LeadingSpace(Encoded(c)) == if Text.IsSpace(c) then |Encoded(c)| else 0
  {
    var n := c as int;
    var r := Encoded(c);
    WholeOf(n);
    if n < 0x80 {
      assert LeadingSpace(r) > 0 <==> Text.IsSpace(c);
    } else if n < 0x800 {
      assert r[..2] == r;
      assert LeadingSpace(r) > 0 <==> r[0] == 0xC2 && (r[1] == 0x85 || r[1] == 0xA0);
      assert r[0] == 0xC2 <==> n / 64 == 2;
    } else if n < 0x10000 {
      assert r[..2] != [0xC2, 0x85] && r[..2] != [0xC2, 0xA0] by { assert r[..2][0] == r[0] >= 0xE0; }
      assert LeadingSpace(r) > 0 <==> WideSpace(r[0], r[1], r[2]);
      WideSpaceEncoded(n, n / 4096, n / 64 % 64, n % 64);
    } else {
      assert r[0] >= 0xF0;
      assert r[..2] != [0xC2, 0x85] && r[..2] != [0xC2, 0xA0] by { assert r[..2][0] == r[0]; }
    }
  }

  lemma WideSpaceEncoded(n: nat, a: nat, b: nat, c: nat)
    requires n == a * 4096 + b * 64 + c && a < 16 && b < 64 && c < 64
    ensures WideSpace((0xE0 + a) as Byte, (0x80 + b) as Byte, (0x80 + c) as Byte)
       <==> n == 0x1680 || 0x2000 <= n <= 0x200A || n in {0x2028, 0x2029, 0x202F, 0x205F, 0x3000}
  {
  }

  lemma SpaceInFront(c: char, more: seq<Byte>)
    ensures LeadingSpace(Encoded(c) + more) == if Text.IsSpace(c) then |Encoded(c)| else 0
  {
    var r := Encoded(c);
    SpaceEncoded(c);
    RuneOfCharacter(c);
    hide Encoded, Text.IsSpace;
    var all := r + more;
    assert forall i :: 0 <= i < |r| ==> all[i] == r[i];
    if |r| == 1 {
      assert |all| >= 2 ==> all[..2][0] == r[0];
    } else if |r| == 2 {
      assert all[..2] == r[..2];
    } else {
      assert all[..2] == r[..2];
    }
  }

  lemma NoSpaceInside(t: seq<Byte>)
    ensures t != [] && Tail(t[0]) ==> LeadingSpace(t) == 0
    ensures forall i :: 0 < i < LeadingSpace(t) ==> Tail(t[i])
  {
    if |t| >= 2 { assert t[..2][0] == t[0] && t[..2][1] == t[1]; }
  }

  /** No white space ends where a character does unless it is the character. */
  lemma NotElsewhere(before: seq<Byte>, r: seq<Byte>, k: nat)
    requires Rune(r) == |r| > 0 && 1 <= k <= |before + r| && k != |r|
    ensures LeadingSpace((before + r)[|before + r| - k..]) != k
  {
    hide LeadingSpace;
    var t := (before + r)[|before + r| - k..];
    NoSpaceInside(t);
    if k < |r| {
      assert t[0] == r[|r| - k];
    } else {
      assert t[k - |r|] == r[0];
    }
  }

  lemma SpaceAtEnd(before: seq<Byte>, c: char)
    ensures TrailingSpace(before + Encoded(c)) == if Text.IsSpace(c) then |Encoded(c)| else 0
  {
    hide LeadingSpace, Rune, Text.IsSpace, Encoded;
    var r := Encoded(c);
    var s := before + r;
    SpaceEncoded(c);
    RuneOfCharacter(c);
    assert s[|s| - |r|..] == r;
    if |s| >= 1 && |r| != 1 { NotElsewhere(before, r, 1); }
    if |s| >= 2 && |r| != 2 { NotElsewhere(before, r, 2); }
    if |s| >= 3 && |r| != 3 { NotElsewhere(before, r, 3); }
  }

  lemma {:induction false} TrimLeftEncoded(s: string, i: nat)
    requires i <= |s|
    ensures TrimLeft(Encode(s[i..])) == Encode(s[Text.SpacesEnd(s, i)..])
    decreases |s| - i
  {
    hide LeadingSpace, Encoded, Text.IsSpace;
    if i < |s| {
      assert s[i..][1..] == s[i + 1..];
      var r, more := Encoded(s[i]), Encode(s[i + 1..]);
      SpaceInFront(s[i], more);
      assert (r + more)[|r|..] == more;
      if Text.IsSpace(s[i]) { TrimLeftEncoded(s, i + 1); }
    }
  }

  lemma {:induction false} TrimRightEncoded(s: string, i: nat)
    requires i <= |s|
    ensures TrimRight(Encode(s[..i])) == Encode(s[..Text.SpacesStart(s, i)])
  {
    assert TrailingSpace([]) == 0 && Encode("") == [];
    hide TrailingSpace, Encoded, Text.IsSpace, Encode;
    if i > 0 {
      var before, r := Encode(s[..i - 1]), Encoded(s[i - 1]);
      assert s[..i] == s[..i - 1] + [s[i - 1]];
      EncodeConcat(s[..i - 1], [s[i - 1]]);
      EncodeOne(s[i - 1]);
      SpaceAtEnd(before, s[i - 1]);
      assert (before + r)[..|before|] == before;
      if Text.IsSpace(s[i - 1]) { TrimRightEncoded(s, i - 1); }
    } else {
      assert s[..i] == "";
    }
  }

  /** Trimming the bytes is trimming the text. */
  lemma TrimEncoded(s: string)
    ensures TrimSpace(Encode(s)) == Encode(Text.Trim(s))
  {
    hide TrimLeft, TrimRight, Encode;
    var left := Text.TrimLeft(s);
    assert s[0..] == s && left[..|left|] == left;
    TrimLeftEncoded(s, 0);
    TrimRightEncoded(left, |left|);
  }

  // ---- Truncation ----

  /** Between two characters no byte is a place to cut. */
  lemma NoBoundaryInside(s: string, f: nat, j: nat)
    requires f < |s| && |Encode(s[..f])| < j < |Encode(s[..f + 1])|
    ensures j < |Encode(s)| && !Boundary(Encode(s), j)
  {
    hide Encode, Encoded, Rune;
    var before, r, after := Encode(s[..f]), Encoded(s[f]), Encode(s[f + 1..]);
    assert s[..f + 1] == s[..f] + [s[f]] && s == s[..f + 1] + s[f + 1..];
    EncodeConcat(s[..f], [s[f]]);
    EncodeConcat(s[..f + 1], s[f + 1..]);
    EncodeOne(s[f]);
    RuneOfCharacter(s[f]);
    assert Encode(s)[j] == r[j - |before|];
  }

  /** The longest valid prefix of the bytes is the most characters that fit. */
  lemma LongestIsFit(s: string, limit: nat)
    requires limit < Text.ByteLen(s)
    ensures LongestPrefix(Encode(s), limit, |Encode(s[..Text.Fit(s, limit)])|)
    ensures Encode(s)[..|Encode(s[..Text.Fit(s, limit)])|] == Encode(s[..Text.Fit(s, limit)])
  {
    hide Encode, Text.ByteLen, Valid, Text.Fit;
    var f := Text.Fit(s, limit);
    var all, kept := Encode(s), Encode(s[..f]);
    assert s == s[..f] + s[f..];
    EncodeConcat(s[..f], s[f..]);
    EncodeIsValid(s[..f]);
    EncodeIsValid(s);
    assert all[..|kept|] == kept;
    assert f < |s| by { assert s[..|s|] == s; }
    forall j | |kept| < j <= |all| && j <= limit ensures !Valid(all[..j]) {
      NoBoundaryInside(s, f, j);
      if Valid(all[..j]) { ValidPrefixEnds(all, j); }
    }
  }

  /** TruncateUTF8 of a text's bytes gives the bytes of the text cut by characters, and
      BoundedText those of the text bounded so. */
  lemma TruncationIsCut(s: string, limit: int, r: seq<Byte>)
    requires limit <= 0 ==> r == []
    requires 0 < limit && |Encode(s)| <= limit ==> r == Encode(s)
    requires 0 < limit < |Encode(s)| ==> exists k :: LongestPrefix(Encode(s), limit, k) && r == TrimSpace(Encode(s)[..k])
    ensures r == Encode(Text.Cut(s, limit))
  {
    hide Valid, TrimSpace, Text.Trim, Text.Fit;
    if 0 < limit < |Encode(s)| {
      hide Encode;
      var f := Text.Fit(s, limit);
      var k :| LongestPrefix(Encode(s), limit, k) && r == TrimSpace(Encode(s)[..k]);
      LongestIsFit(s, limit);
      LongestIsUnique(Encode(s), limit, k, |Encode(s[..f])|);
      TrimEncoded(s[..f]);
    } else if limit <= 0 {
      assert Encode("") == [];
    }
  }
}
