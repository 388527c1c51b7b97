/** Strings as the Go code reads them: trimming, ASCII lower-casing, byte length,
    containment and decimal numerals. */
module Text {
  import opened Options

  /** unicode.IsSpace, the class strings.TrimSpace removes. */
  predicate IsSpace(c: char) {
    || c == ' ' || '\t' <= c <= '\r'
    || c == '\U{85}' || c == '\U{A0}' || c == '\U{1680}'
    || '\U{2000}' <= c <= '\U{200A}'
    || c == '\U{2028}' || c == '\U{2029}' || c == '\U{202F}'
    || c == '\U{205F}' || c == '\U{3000}'
  }

  /** Where a run of white space beginning at a position ends. */
  function SpacesEnd(s: string, at: nat): (r: nat)
    requires at <= |s|
    ensures at <= r <= |s| && (r < |s| ==> !IsSpace(s[r]))
    decreases |s| - at
  {
    if at < |s| && IsSpace(s[at]) then SpacesEnd(s, at + 1) else at
  }

  /** Where a run of white space ending at a position begins. */
  function SpacesStart(s: string, at: nat): (r: nat)
    requires at <= |s|
    ensures r <= at && (r > 0 ==> !IsSpace(s[r - 1]))
  {
    if at > 0 && IsSpace(s[at - 1]) then SpacesStart(s, at - 1) else at
  }

  function TrimLeft(s: string): string {
    s[SpacesEnd(s, 0)..]
  }

  function TrimRight(s: string): string {
    s[..SpacesStart(s, |s|)]
  }

  /** strings.TrimSpace */
  function Trim(s: string): string {
    TrimRight(TrimLeft(s))
  }

  predicate Blank(s: string) {
    Trim(s) == ""
  }

  /** No white space at either end. */
  predicate Tight(s: string) {
    s == "" || (!IsSpace(s[0]) && !IsSpace(s[|s| - 1]))
  }

  lemma TrimIsTight(s: string)
    ensures Tight(Trim(s))
  {
    var left := TrimLeft(s);
    var r := TrimRight(left);
    if r != "" {
      assert r[0] == left[0];
    }
  }

  /** Trimming changes exactly the strings that are not tight. */
  lemma TrimFixed(s: string)
    ensures Trim(s) == s <==> Tight(s)
  {
    if Trim(s) == s {
      TrimIsTight(s);
    }
  }

  lemma {:induction false} SpaceStops(s: string, i: nat, at: nat)
    requires i < at <= |s| && !IsSpace(s[i])
    ensures SpacesStart(s, at) > i
    decreases at
  {
    if i < at - 1 {
      SpaceStops(s, i, at - 1);
    }
  }

  /** Text that begins with no white space still begins so once trimmed. */
  lemma TrimBegins(s: string)
    requires s != "" && !IsSpace(s[0])
    ensures Trim(s) != "" && Trim(s)[0] == s[0]
  {
    assert TrimLeft(s) == s;
    SpaceStops(s, 0, |s|);
  }

  lemma TrimTwice(s: string)
    ensures Trim(Trim(s)) == Trim(s)
  {
    TrimIsTight(s);
    TrimFixed(Trim(s));
  }

  function LowerChar(c: char): char {
    if 'A' <= c <= 'Z' then (c as int + 32) as char else c
  }

  /** strings.ToLower on ASCII letters. */
  function Lower(s: string): (r: string)
    ensures |r| == |s|
    ensures forall i :: 0 <= i < |s| ==> r[i] == LowerChar(s[i])
  {
    seq(|s|, i requires 0 <= i < |s| => LowerChar(s[i]))
  }

  lemma LowerTwice(s: string)
    ensures Lower(Lower(s)) == Lower(s)
  {
  }

  function CharBytes(c: char): nat {
    if c as int < 0x80 then 1 else if c as int < 0x800 then 2 else if c as int < 0x10000 then 3 else 4
  }

  /** len(s): the bytes of the UTF-8 encoding. */
  function ByteLen(s: string): nat {
    if s == "" then 0 else CharBytes(s[0]) + ByteLen(s[1..])
  }

  lemma {:induction false} AsciiBytes(s: string)
    requires forall i :: 0 <= i < |s| ==> s[i] as int < 0x80
    ensures ByteLen(s) == |s|
  {
    if s != "" {
      AsciiBytes(s[1..]);
    }
  }

  lemma {:induction false} ByteLenPrefix(s: string, n: nat)
    requires n <= |s|
    ensures ByteLen(s[..n]) <= ByteLen(s)
  {
    if n > 0 {
      assert s[..n][1..] == s[1..][..n - 1];
      ByteLenPrefix(s[1..], n - 1);
    }
  }

  lemma {:induction false} ByteLenSuffix(s: string, n: nat)
    requires n <= |s|
    ensures ByteLen(s[n..]) <= ByteLen(s)
  {
    if n > 0 {
      assert s[1..][n - 1..] == s[n..];
      ByteLenSuffix(s[1..], n - 1);
    }
  }

  lemma ByteLenTrim(s: string)
    ensures ByteLen(Trim(s)) <= ByteLen(s)
  {
    hide ByteLen;
    var left := TrimLeft(s);
    ByteLenSuffix(s, |s| - |left|);
    ByteLenPrefix(left, |TrimRight(left)|);
  }

  lemma {:induction false} ByteLenLower(s: string)
    ensures ByteLen(Lower(s)) == ByteLen(s)
  {
    if s != "" {
      assert Lower(s)[1..] == Lower(s[1..]);
      ByteLenLower(s[1..]);
    }
  }

  /** How much of a text fits the limit. */
  function Fit(s: string, limit: int): (k: nat)
    ensures k <= |s|
    ensures limit >= 0 ==> ByteLen(s[..k]) <= limit
    ensures k < |s| ==> ByteLen(s[..k + 1]) > limit
  {
    if s == "" then 0
    else if ByteLen(s) <= limit then
      assert s[..|s|] == s;
      |s|
    else
      var front := s[..|s| - 1];
      var k := Fit(front, limit);
      assert s[..|s|] == s && front[..k] == s[..k];
      assert k < |front| ==> front[..k + 1] == s[..k + 1];
      k
  }

  /** core.TruncateUTF8 on text: at most so many bytes, trimmed if anything was cut. */
  function Cut(s: string, limit: int): string {
    if limit <= 0 then "" else if ByteLen(s) <= limit then s else Trim(s[..Fit(s, limit)])
  }

  lemma CutTwice(s: string, limit: int)
    ensures Cut(Cut(s, limit), limit) == Cut(s, limit)
    ensures limit > 0 ==> ByteLen(Cut(s, limit)) <= limit
  {
    hide Trim, ByteLen, Fit;
    if limit > 0 && ByteLen(s) > limit {
      ByteLenTrim(s[..Fit(s, limit)]);
    }
  }

  lemma CutTight(s: string, limit: int)
    requires Tight(s)
    ensures Tight(Cut(s, limit))
  {
    hide Trim, ByteLen, Fit;
    if limit > 0 && ByteLen(s) > limit {
      TrimIsTight(s[..Fit(s, limit)]);
    }
  }

  /** core.BoundedText: trimmed, then cut. */
  function Bounded(value: string, limit: int): string {
    Cut(Trim(value), limit)
  }

  lemma BoundedTwice(s: string, limit: nat)
    requires limit > 0
    ensures Bounded(Bounded(s, limit), limit) == Bounded(s, limit)
  {
    hide Trim, Cut;
    TrimIsTight(s);
    CutTight(Trim(s), limit);
    TrimFixed(Cut(Trim(s), limit));
    CutTwice(Trim(s), limit);
  }

  lemma BoundedFixed(s: string, limit: nat)
    requires Tight(s) && ByteLen(s) <= limit && limit > 0
    ensures Bounded(s, limit) == s
  {
    hide Trim, ByteLen;
    TrimFixed(s);
  }

  lemma CutBegins(s: string, limit: nat)
    requires s != "" && !IsSpace(s[0]) && CharBytes(s[0]) <= limit
    ensures Cut(Trim(s), limit) != "" && Cut(Trim(s), limit)[0] == s[0]
  {
    TrimBegins(s);
    var t := Trim(s);
    if ByteLen(t) > limit {
      assert t[..1][1..] == "";
      assert ByteLen(t[..1]) == CharBytes(s[0]);
      var k := Fit(t, limit);
      assert k >= 1;
      TrimBegins(t[..k]);
    }
  }

  predicate HasSuffix(s: string, suffix: string) {
    |suffix| <= |s| && s[|s| - |suffix|..] == suffix
  }

  predicate OccursAt(s: string, part: string, i: int) {
    0 <= i <= |s| - |part| && s[i..i + |part|] == part
  }

  /** strings.Contains */
  predicate Contains(s: string, part: string) {
    exists i | 0 <= i <= |s| :: OccursAt(s, part, i)
  }

  lemma OccursInFront(s: string, part: string)
    requires s != "" && |part| <= |s|
    ensures forall j :: 0 <= j < |s| - |part| ==> (OccursAt(s[..|s| - 1], part, j) <==> OccursAt(s, part, j))
  {
    forall j | 0 <= j < |s| - |part| ensures OccursAt(s[..|s| - 1], part, j) <==> OccursAt(s, part, j) {
      assert s[..|s| - 1][j..j + |part|] == s[j..j + |part|];
    }
  }

  /** strings.Index: where a part first occurs. */
  function Index(s: string, part: string): (r: Option<nat>)
    ensures r.Some? ==> OccursAt(s, part, r.value) && forall j :: 0 <= j < r.value ==> !OccursAt(s, part, j)
    ensures r.None? ==> forall j :: !OccursAt(s, part, j)
    decreases |s|
  {
    var last := |s| - |part|;
    if last < 0 then None
    else if s == "" then Some(0)
    else
      var front := s[..|s| - 1];
      OccursInFront(s, part);
      var before := Index(front, part);
      if before.Some? then before
      else if s[last..] == part then Some(last)
      else None
  }

  function Digit(n: nat): char
    requires n < 10
  {
    ('0' as int + n) as char
  }

  /** strconv.Itoa for a non-negative number. */
  function Itoa(n: nat): (r: string)
    ensures r != ""
    ensures forall i :: 0 <= i < |r| ==> '0' <= r[i] <= '9'
  {
    if n < 10 then [Digit(n)] else Itoa(n / 10) + [Digit(n % 10)]
  }

  function Value(digits: string): nat
    requires forall i :: 0 <= i < |digits| ==> '0' <= digits[i] <= '9'
  {
    if digits == "" then 0
    else 10 * Value(digits[..|digits| - 1]) + (digits[|digits| - 1] as int - '0' as int)
  }

  lemma {:induction false} ItoaValue(n: nat)
    ensures Value(Itoa(n)) == n
  {
    if n < 10 {
      assert [Digit(n)][..0] == "";
    } else {
      ItoaValue(n / 10);
      var all := Itoa(n);
      assert all[..|all| - 1] == Itoa(n / 10);
    }
  }

  function TrailingDigits(s: string): nat {
    if s != "" && '0' <= s[|s| - 1] <= '9' then 1 + TrailingDigits(s[..|s| - 1]) else 0
  }

  lemma {:induction false} TrailingNumeral(a: string, digits: string)
    requires forall i :: 0 <= i < |digits| ==> '0' <= digits[i] <= '9'
    ensures TrailingDigits(a + "-" + digits) == |digits|
  {
    if digits == "" {
      assert a + "-" + digits == a + "-";
    } else {
      var all, front := a + "-" + digits, digits[..|digits| - 1];
      assert all[..|all| - 1] == a + "-" + front;
      TrailingNumeral(a, front);
    }
  }

  /** A numeral written after a dash can be read back. */
  lemma SuffixNumeral(a: string, b: string, m: nat, n: nat)
    requires a + "-" + Itoa(m) == b + "-" + Itoa(n)
    ensures a == b && m == n
  {
    ItoaValue(m);
    ItoaValue(n);
    TrailingNumeral(a, Itoa(m));
    TrailingNumeral(b, Itoa(n));
    SameSplit(a, Itoa(m), b, Itoa(n));
  }

  lemma SameSplit(a: string, s: string, b: string, t: string)
    requires a + "-" + s == b + "-" + t && |s| == |t|
    ensures a == b && s == t
  {
    var all := a + "-" + s;
    assert a == all[..|all| - |s| - 1] == b;
    assert s == all[|all| - |s|..] == t;
  }
}
