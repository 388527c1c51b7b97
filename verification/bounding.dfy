/** Bounding text without splitting a character: TruncateUTF8 and its suffix form
    (internal/core/text.go), and the prompt cut of internal/coop/client.go. */
module Bounding {
  import opened Bytes
  import opened Utf8

  /** The length of the longest valid prefix no longer than the limit. */
  ghost predicate LongestPrefix(s: seq<Byte>, limit: int, k: int) {
    && 0 <= k <= |s| && k <= limit && Valid(s[..k])
    && forall j :: k < j <= |s| && j <= limit ==> !Valid(s[..j])
  }

  lemma LongestIsUnique(s: seq<Byte>, limit: int, j: int, k: int)
    requires LongestPrefix(s, limit, j) && LongestPrefix(s, limit, k)
    ensures j == k
  {
  }

  /** On valid text the cut drops at most the three bytes of a character that does
      not fit. */
  lemma LongestIsClose(s: seq<Byte>, limit: int, k: int)
    requires Valid(s) && 0 <= limit <= |s| && LongestPrefix(s, limit, k)
    ensures limit - 3 <= k <= limit && Boundary(s, k)
  {
    var b := BoundaryBefore(s, limit);
    CutValid(s, b);
    ValidPrefixEnds(s, k);
  }

  /** TruncateUTF8. Whatever the input, what is kept is the trimmed longest valid
      prefix; a value that fits is returned as it is, not even trimmed. */
  method TruncateUtf8(value: seq<Byte>, limit: int) returns (r: seq<Byte>)
    ensures limit <= 0 ==> r == []
    ensures 0 < limit && |value| <= limit ==> r == value
    ensures 0 < limit < |value| ==> exists k :: LongestPrefix(value, limit, k) && r == TrimSpace(value[..k])
    ensures 0 < limit < |value| ==> forall k :: LongestPrefix(value, limit, k) ==> r == TrimSpace(value[..k])
    ensures limit >= 0 ==> |r| <= limit
    ensures Valid(value) || |value| > limit ==> Valid(r)
  {
    hide Valid, TrimSpace, LongestPrefix;
    NothingIsValid();
    if limit <= 0 { return []; }
    if |value| <= limit { return value; }
    var cut := value[..limit];
    while !Valid(cut)
      invariant |cut| <= limit && cut == value[..|cut|]
      invariant forall j :: |cut| < j <= limit ==> !Valid(value[..j])
      decreases |cut|
    {
      cut := cut[..|cut| - 1];
    }
    LongestAt(value, limit, cut);
    TrimSpaceValid(cut);
    return TrimSpace(cut);
  }

  lemma NothingIsValid()
    ensures Valid([])
  {
  }

  lemma LongestAt(value: seq<Byte>, limit: int, cut: seq<Byte>)
    requires 0 <= limit <= |value| && |cut| <= limit && cut == value[..|cut|] && Valid(cut)
    requires forall j :: |cut| < j <= limit ==> !Valid(value[..j])
    ensures LongestPrefix(value, limit, |cut|)
    ensures forall k :: LongestPrefix(value, limit, k) ==> k == |cut|
  {
    hide Valid;
    forall k | LongestPrefix(value, limit, k) ensures k == |cut| {
      LongestIsUnique(value, limit, k, |cut|);
    }
  }

  /** TruncateUTF8WithSuffix: the limit holds exactly when the value already fits or
      the suffix does. */
  method TruncateUtf8WithSuffix(value: seq<Byte>, limit: int, suffix: seq<Byte>) returns (r: seq<Byte>)
    ensures |value| <= limit ==> r == value
    ensures |value| > limit ==> |suffix| <= |r| && r[|r| - |suffix|..] == suffix
    ensures |r| <= limit <==> |value| <= limit || |suffix| <= limit
    ensures |value| > limit && |suffix| >= limit ==> r == suffix
    ensures Valid(value) && Valid(suffix) ==> Valid(r)
    ensures |suffix| < limit < |value| ==> exists k :: LongestPrefix(value, limit - |suffix|, k) && r == TrimSpace(value[..k]) + suffix
  {
    hide Valid, TrimSpace, LongestPrefix;
    if |value| <= limit { return value; }
    var kept := TruncateUtf8(value, limit - |suffix|);
    if Valid(value) && Valid(suffix) { JoinValid(kept, suffix); }
    return kept + suffix;
  }

  // ---- The prompt ----

  const MAX_PROMPT_BYTES := 262144
  const PROMPT_TAIL_BYTES := 20480
  const REPLACEMENT: seq<Byte> := [0xEF, 0xBF, 0xBD]

  /** The bytes of an ASCII text; the question mark stands for any other character. */
  function Ascii(text: string): (r: seq<Byte>)
    ensures |r| == |text|
    ensures forall i :: 0 <= i < |r| ==> r[i] < 0x80
  {
    seq(|text|, i requires 0 <= i < |text| => if text[i] < 128 as char then (text[i] as int) as Byte else 0x3F)
  }

  lemma {:induction false} AsciiValid(s: seq<Byte>)
    requires forall i :: 0 <= i < |s| ==> s[i] < 0x80
    ensures Valid(s)
  {
    if s != [] {
      AsciiValid(s[1..]);
    }
  }

  const ELISION_TEXT :=
    "\n\n<responder-context-elided>\nOlder bounded context was omitted to fit the Coop turn limit.\n</responder-context-elided>\n\n"

  /** strings.ToValidUTF8: a run of bytes that begin no character becomes one
      replacement character. */
  function ToValid(s: seq<Byte>, inRun: bool): seq<Byte>
    decreases |s|
  {
    if s == [] then []
    else if Rune(s) > 0 then s[..Rune(s)] + ToValid(s[Rune(s)..], false)
    else (if inRun then [] else REPLACEMENT) + ToValid(s[1..], true)
  }

  /** strings.ReplaceAll of the zero byte. */
  function WithoutZero(s: seq<Byte>): seq<Byte> {
    if s == [] then []
    else WithoutZero(s[..|s| - 1]) + if s[|s| - 1] == 0 then REPLACEMENT else [s[|s| - 1]]
  }

  function Sanitized(prompt: seq<Byte>): seq<Byte> {
    WithoutZero(ToValid(prompt, false))
  }

  /** Bytes of which none begins a character, up to one that does. */
  predicate BadRun(bad: seq<Byte>, b: seq<Byte>) {
    && (forall i :: 0 <= i < |bad| ==> Rune((bad + b)[i..]) == 0)
    && (b == [] || Rune(b) > 0)
  }

  lemma BadAhead(s: seq<Byte>)
    requires s != [] && Rune(s) == 0
    ensures ToValid(s, true) == ToValid(s[1..], true)
    ensures ToValid(s, false) == [0xEF, 0xBF, 0xBD] + ToValid(s[1..], true)
  {
    hide Rune;
    assert [] + ToValid(s[1..], true) == ToValid(s[1..], true);
  }

  lemma BadRunNext(bad: seq<Byte>, b: seq<Byte>)
    requires BadRun(bad, b) && bad != []
    ensures Rune(bad + b) == 0 && (bad + b)[1..] == bad[1..] + b && BadRun(bad[1..], b)
  {
    hide Rune;
    assert (bad + b)[0..] == bad + b;
    forall i | 0 <= i < |bad[1..]| ensures Rune((bad[1..] + b)[i..]) == 0 {
      assert (bad[1..] + b)[i..] == (bad + b)[i + 1..];
    }
  }

  lemma {:induction false} RunReplaced(bad: seq<Byte>, b: seq<Byte>)
    requires BadRun(bad, b)
    ensures ToValid(bad + b, true) == ToValid(b, false)
    ensures bad != [] ==> ToValid(bad + b, false) == [0xEF, 0xBF, 0xBD] + ToValid(b, false)
    decreases |bad|
  {
    if bad == [] {
      assert bad + b == b;
      AfterRun(b);
    } else {
      BadRunNext(bad, b);
      hide Rune, BadRun, ToValid;
      BadAhead(bad + b);
      RunReplaced(bad[1..], b);
    }
  }

  lemma AfterRun(b: seq<Byte>)
    requires b == [] || Rune(b) > 0
    ensures ToValid(b, true) == ToValid(b, false)
  {
    hide Rune;
  }

  /** Valid text stands as it is, and each run of bytes that begin no character, however
      long, becomes one replacement character. */
  lemma ReplacesEachRun(a: seq<Byte>, bad: seq<Byte>, b: seq<Byte>)
    requires Valid(a) && bad != [] && BadRun(bad, b)
    ensures ToValid(a + bad + b, false) == a + [0xEF, 0xBF, 0xBD] + ToValid(b, false)
  {
    hide Rune, Valid, BadRun;
    RunReplaced(bad, b);
    ValidAhead(a, bad + b);
    hide ToValid;
    Reassociate(a, bad, b);
    Reassociate(a, [0xEF, 0xBF, 0xBD], ToValid(b, false));
  }

  lemma Reassociate(a: seq<Byte>, b: seq<Byte>, c: seq<Byte>)
    ensures a + (b + c) == a + b + c
  {
  }

  lemma {:induction false} ValidAhead(a: seq<Byte>, more: seq<Byte>)
    requires Valid(a)
    ensures ToValid(a + more, false) == a + ToValid(more, false)
    decreases |a|
  {
    hide Rune, ToValid;
    if a == [] {
      assert a + more == more;
    } else {
      var n := Rune(a);
      RuneAhead(a, more, false);
      ValidAhead(a[n..], more);
      hide Valid;
      assert a == a[..n] + a[n..];
      Reassociate(a[..n], a[n..], ToValid(more, false));
    }
  }

  lemma RuneAhead(a: seq<Byte>, more: seq<Byte>, inRun: bool)
    requires Rune(a) > 0
    ensures ToValid(a + more, inRun) == a[..Rune(a)] + ToValid(a[Rune(a)..] + more, false)
  {
    hide Rune;
    RuneOfLonger(a, more);
    DropJoin(a, more, Rune(a));
    assert (a + more)[..Rune(a)] == a[..Rune(a)];
  }

  /** A zero byte becomes one replacement character, whatever stands around it. */
  lemma ReplacesEachZero(a: seq<Byte>, b: seq<Byte>)
    requires 0 !in a
    ensures WithoutZero(a + [0] + b) == a + [0xEF, 0xBF, 0xBD] + WithoutZero(b)
  {
    assert [0 as Byte][..0] == [] && WithoutZero([0 as Byte][..0]) == [];
    assert WithoutZero([0]) == REPLACEMENT;
    hide WithoutZero;
    WithoutZeroConcat(a + [0], b);
    WithoutZeroConcat(a, [0]);
    NoZero(a);
  }

  lemma ReplacementValid()
    ensures Valid(REPLACEMENT)
  {
    assert REPLACEMENT[3..] == [];
  }

  lemma OneRune(s: seq<Byte>)
    requires Rune(s) > 0
    ensures Valid(s[..Rune(s)])
  {
    var n := Rune(s);
    RuneOfPrefix(s, n);
    assert s[..n][n..] == [];
  }

  lemma {:induction false} ToValidIsValid(s: seq<Byte>, inRun: bool)
    ensures Valid(ToValid(s, inRun))
    decreases |s|
  {
    if s != [] {
      ReplacementValid();
      if Rune(s) > 0 {
        OneRune(s);
        ToValidIsValid(s[Rune(s)..], false);
        JoinValid(s[..Rune(s)], ToValid(s[Rune(s)..], false));
      } else {
        ToValidIsValid(s[1..], true);
        JoinValid(if inRun then [] else REPLACEMENT, ToValid(s[1..], true));
      }
    }
  }

  lemma {:induction false} ToValidKeepsValid(s: seq<Byte>, inRun: bool)
    requires Valid(s)
    ensures ToValid(s, inRun) == s
    decreases |s|
  {
    if s != [] {
      ToValidKeepsValid(s[Rune(s)..], false);
    }
  }

  lemma WithoutZeroConcat(a: seq<Byte>, b: seq<Byte>)
    ensures WithoutZero(a + b) == WithoutZero(a) + WithoutZero(b)
    decreases |b|
  {
    if b == [] {
      assert a + b == a;
    } else {
      assert (a + b)[..|a + b| - 1] == a + b[..|b| - 1];
      WithoutZeroConcat(a, b[..|b| - 1]);
    }
  }

  lemma {:induction false} NoZero(s: seq<Byte>)
    ensures 0 !in WithoutZero(s)
    ensures 0 !in s ==> WithoutZero(s) == s
  {
    if s != [] {
      NoZero(s[..|s| - 1]);
      assert s == s[..|s| - 1] + [s[|s| - 1]];
    }
  }

  lemma {:induction false} WithoutZeroValid(s: seq<Byte>)
    requires Valid(s)
    ensures Valid(WithoutZero(s))
    decreases |s|
  {
    if s != [] {
      var n := Rune(s);
      ReplacementValid();
      OneRune(s);
      WithoutZeroValid(s[n..]);
      assert s == s[..n] + s[n..];
      WithoutZeroConcat(s[..n], s[n..]);
      RuneWithoutZero(s[..n]);
      JoinValid(WithoutZero(s[..n]), WithoutZero(s[n..]));
    }
  }

  lemma RuneWithoutZero(s: seq<Byte>)
    requires Rune(s) == |s| > 0
    ensures Valid(WithoutZero(s))
  {
    ReplacementValid();
    if s[0] == 0 {
      assert s == [] + [s[0]];
      assert WithoutZero([]) == [];
      assert WithoutZero(s) == REPLACEMENT;
    } else {
      NoZero(s);
      assert s[|s|..] == [];
    }
  }

  /** Sanitising makes any bytes valid text without a zero, and leaves such text alone. */
  lemma SanitizedIsValid(prompt: seq<Byte>)
    ensures Valid(Sanitized(prompt)) && 0 !in Sanitized(prompt)
    ensures Valid(prompt) && 0 !in prompt ==> Sanitized(prompt) == prompt
  {
    ToValidIsValid(prompt, false);
    WithoutZeroValid(ToValid(prompt, false));
    NoZero(ToValid(prompt, false));
    if Valid(prompt) {
      ToValidKeepsValid(prompt, false);
    }
  }

  lemma ElisionText()
    ensures |ELISION_TEXT| < 200
  {
  }

  function Marker(): (r: seq<Byte>)
    ensures |r| < 200 && Valid(r)
  {
    ElisionText();
    AsciiValid(Ascii(ELISION_TEXT));
    Ascii(ELISION_TEXT)
  }

  /** What the cut of a long prompt promises: a prefix, the marker and a suffix that
      do not overlap, each within three bytes of its target, all of it valid. */
  ghost predicate BoundedCut(prompt: seq<Byte>, head: int, tail: int) {
    && 0 <= head < tail <= |prompt| && Boundary(prompt, head) && Boundary(prompt, tail)
    && |prompt| - PROMPT_TAIL_BYTES <= tail <= |prompt| - PROMPT_TAIL_BYTES + 3
    && head + |Marker()| + (|prompt| - tail) <= MAX_PROMPT_BYTES <= head + 3 + |Marker()| + (|prompt| - tail)
  }

  method BoundPrompt(prompt: seq<Byte>) returns (r: seq<Byte>, truncated: bool)
    ensures |r| <= MAX_PROMPT_BYTES && Valid(r)
    ensures truncated <==> |Sanitized(prompt)| > MAX_PROMPT_BYTES
    ensures !truncated ==> r == Sanitized(prompt)
    ensures truncated ==> exists head, tail ::
              BoundedCut(Sanitized(prompt), head, tail)
              && r == Sanitized(prompt)[..head] + Marker() + Sanitized(prompt)[tail..]
  {
    hide WithoutZero, ToValid, Valid, Marker;
    SanitizedIsValid(prompt);
    var p := Sanitized(prompt);
    if |p| <= MAX_PROMPT_BYTES { return p, false; }
    ghost var target := |p| - PROMPT_TAIL_BYTES;
    ghost var after := BoundaryAfter(p, target);
    var tail := |p| - PROMPT_TAIL_BYTES;
    while tail < |p| && !RuneStart(p[tail])
      invariant target <= tail <= after
    {
      assert !Boundary(p, tail);
      tail := tail + 1;
    }
    ghost var limit := MAX_PROMPT_BYTES - |Marker()| - (|p| - tail);
    ghost var before := BoundaryBefore(p, limit);
    CutValid(p, before);
    var head := MAX_PROMPT_BYTES - |Marker()| - (|p| - tail);
    while head > 0 && !Valid(p[..head])
      invariant before <= head <= limit
    {
      head := head - 1;
    }
    ValidPrefix(p, head);
    CutValid(p, tail);
    ghost var text := p[..head] + Marker();
    JoinValid(p[..head], Marker());
    JoinValid(text, p[tail..]);
    assert BoundedCut(p, head, tail);
    return p[..head] + Marker() + p[tail..], true;
  }

  lemma ValidPrefix(s: seq<Byte>, i: nat)
    requires Valid(s) && i <= |s| && (i == 0 || Valid(s[..i]))
    ensures Valid(s[..i]) && Boundary(s, i)
  {
    assert s[..0] == [];
    ValidPrefixEnds(s, i);
  }
}
