/**
 * String helpers shared by the server actions: `Array.join`, splitting at a
 * character, `String.replace` with a global pattern, and `String.trim`.
 */
module Text {

  /** `parts.join(sep)`. */
  function Join(parts: seq<string>, sep: string): (s: string)
    ensures |parts| == 0 ==> s == ""
    ensures |parts| == 1 ==> s == parts[0]
    decreases |parts|
  {
    if |parts| == 0 then ""
    else if |parts| == 1 then parts[0]
    else parts[0] + sep + Join(parts[1..], sep)
  }

  /** The position of the first `c` in `s`, or `|s|`. */
  function IndexOf(s: string, c: char): (i: nat)
    ensures i <= |s|
    ensures i < |s| ==> s[i] == c
    ensures forall j :: 0 <= j < i ==> s[j] != c
  {
    if |s| == 0 then 0
    else if s[0] == c then 0
    else 1 + IndexOf(s[1..], c)
  }

  /** `s.split(c)` for a one-character separator. */
  function Split(s: string, c: char): (parts: seq<string>)
    ensures |parts| >= 1
    decreases |s|
  {
    var i := IndexOf(s, c);
    if i == |s| then [s] else [s[..i]] + Split(s[i + 1..], c)
  }

  /** Joining pieces that do not contain the separator and splitting again gives the pieces back. */
  lemma {:induction false} SplitJoin(parts: seq<string>, c: char)
    requires |parts| >= 1
    requires forall k :: 0 <= k < |parts| ==> c !in parts[k]
    ensures Split(Join(parts, [c]), c) == parts
    decreases |parts|
  {
    if |parts| == 1 {
      assert IndexOf(parts[0], c) == |parts[0]|;
    } else {
      var rest := Join(parts[1..], [c]);
      var s := parts[0] + [c] + rest;
      assert Join(parts, [c]) == s;
      assert IndexOf(s, c) == |parts[0]| by {
        assert c !in parts[0];
        assert s == parts[0] + ([c] + rest);
        IndexOfPrefix(parts[0], [c] + rest, c);
      }
      assert s[..|parts[0]|] == parts[0];
      assert s[|parts[0]| + 1..] == rest;
      SplitJoin(parts[1..], c);
    }
  }

  lemma {:induction false} IndexOfPrefix(a: string, b: string, c: char)
    requires c !in a && |b| > 0 && b[0] == c
    ensures IndexOf(a + b, c) == |a|
    decreases |a|
  {
    if |a| > 0 {
      assert (a + b)[1..] == a[1..] + b;
      IndexOfPrefix(a[1..], b, c);
    }
  }

  /** Whether `pat` occurs in `s` at position `i`. */
  predicate OccursAt(s: string, pat: string, i: nat) {
    i + |pat| <= |s| && s[i..i + |pat|] == pat
  }

  /** `s.replace(/pat/g, '')`: remove the non-overlapping occurrences of `pat`, scanning left to right. */
  function RemoveAll(s: string, pat: string): (r: string)
    requires |pat| > 0
    ensures |r| <= |s|
    ensures (forall i :: 0 <= i < |s| ==> s[i] != pat[0]) ==> r == s
    decreases |s|
  {
    if |s| == 0 then ""
    else if OccursAt(s, pat, 0) then RemoveAll(s[|pat|..], pat)
    else [s[0]] + RemoveAll(s[1..], pat)
  }

  /** ECMAScript WhiteSpace and LineTerminator code points: what `trim` removes. */
  predicate IsWhitespace(c: char) {
    c == '\t' || c == '\n' || c == '\U{B}' || c == '\U{C}' || c == '\r' || c == ' ' ||
    c == '\U{A0}' || c == '\U{1680}' || ('\U{2000}' <= c <= '\U{200A}') ||
    c == '\U{2028}' || c == '\U{2029}' || c == '\U{202F}' || c == '\U{205F}' ||
    c == '\U{3000}' || c == '\U{FEFF}'
  }

  /** `s.trimStart()`. */
  function TrimStart(s: string): (r: string)
    ensures |r| <= |s| && r == s[|s| - |r|..]
    ensures forall i :: 0 <= i < |s| - |r| ==> IsWhitespace(s[i])
    ensures |r| > 0 ==> !IsWhitespace(r[0])
    decreases |s|
  {
    if |s| > 0 && IsWhitespace(s[0]) then TrimStart(s[1..]) else s
  }

  /** `s.trimEnd()`. */
  function TrimEnd(s: string): (r: string)
    ensures |r| <= |s| && r == s[..|r|]
    ensures forall i :: |r| <= i < |s| ==> IsWhitespace(s[i])
    ensures |r| > 0 ==> !IsWhitespace(r[|r| - 1])
    decreases |s|
  {
    if |s| > 0 && IsWhitespace(s[|s| - 1]) then TrimEnd(s[..|s| - 1]) else s
  }

  /** `r` is a middle slice of `s` with only whitespace cut on either side. */
  predicate WhitespaceCut(s: string, r: string) {
    exists i, j :: 0 <= i <= j <= |s| && r == s[i..j] &&
      (forall k :: 0 <= k < i ==> IsWhitespace(s[k])) &&
      (forall k :: j <= k < |s| ==> IsWhitespace(s[k]))
  }

  /** `s.trim()`: the longest middle part that neither starts nor ends with whitespace. */
  function Trim(s: string): (r: string)
    ensures |r| <= |s|
    ensures WhitespaceCut(s, r)
    ensures |r| > 0 ==> !IsWhitespace(r[0]) && !IsWhitespace(r[|r| - 1])
  {
    TrimBothEnds(s);
    TrimEnd(TrimStart(s))
  }

  lemma TrimBothEnds(s: string)
    ensures var r := TrimEnd(TrimStart(s));
            WhitespaceCut(s, r) && (|r| > 0 ==> !IsWhitespace(r[0]) && !IsWhitespace(r[|r| - 1]))
  {
    var t := TrimStart(s);
    var r := TrimEnd(t);
    var i := |s| - |t|;
    var j := i + |r|;
    assert r == s[i..j];
    assert forall k :: j <= k < |s| ==> IsWhitespace(s[k]) by {
      forall k | j <= k < |s| ensures IsWhitespace(s[k]) {
        assert s[k] == t[k - i];
      }
    }
    assert WhitespaceCut(s, r);
    if |r| > 0 {
      assert r[0] == t[0];
    }
  }

  /** Markdown-fence stripping applied to model replies: drop every "```json", then every "```", then trim. */
  function StripFences(s: string): (r: string)
    ensures |r| <= |s|
    ensures WhitespaceCut(RemoveAll(RemoveAll(s, "```json"), "```"), r)
    ensures |r| > 0 ==> !IsWhitespace(r[0]) && !IsWhitespace(r[|r| - 1])
  {
    var t := RemoveAll(RemoveAll(s, "```json"), "```");
    Trim(t)
  }

  /** A reply without backticks and without surrounding whitespace passes through unchanged. */
  lemma StripFencesIdentity(s: string)
    requires forall i :: 0 <= i < |s| ==> s[i] != '`'
    requires |s| > 0 ==> !IsWhitespace(s[0]) && !IsWhitespace(s[|s| - 1])
    ensures StripFences(s) == s
  {
    TrimIdentity(s);
  }

  lemma TrimIdentity(s: string)
    requires |s| > 0 ==> !IsWhitespace(s[0]) && !IsWhitespace(s[|s| - 1])
    ensures Trim(s) == s
  {
  }

  /** A reply "```json" + body + "```" whose body has no backticks yields the trimmed body. */
  lemma StripFencesUnwraps(body: string)
    requires forall i :: 0 <= i < |body| ==> body[i] != '`'
    ensures StripFences("```json" + body + "```") == Trim(body)
  {
    DropOpeningFence(body);
    DropClosingFence(body);
  }

  lemma DropOpeningFence(body: string)
    requires forall i :: 0 <= i < |body| ==> body[i] != '`'
    ensures RemoveAll("```json" + body + "```", "```json") == body + "```"
  {
    var pat := "```json";
    assert pat + body + "```" == pat + (body + "```");
    RemoveAllHead(pat, body + "```");
    RemoveAllKeepsPrefix(body, "```", "```json");
    RemoveAllShort("```", "```json");
  }

  /** An occurrence at the front is removed and the scan continues after it. */
  lemma RemoveAllHead(pat: string, rest: string)
    requires |pat| > 0
    ensures RemoveAll(pat + rest, pat) == RemoveAll(rest, pat)
  {
    assert (pat + rest)[..|pat|] == pat;
    assert (pat + rest)[|pat|..] == rest;
  }

  /**
   * The first occurrence is removed and the scan goes on after it: when the
   * pattern does not occur in `a + pat + b` at any position inside `a`, the
   * text before it is kept as it is.
   */
  lemma {:induction false} RemoveAllDropsOccurrence(a: string, pat: string, b: string)
    requires |pat| > 0
    requires NoOccurrenceBefore(a + pat + b, pat, |a|)
    ensures RemoveAll(a + pat + b, pat) == a + RemoveAll(b, pat)
    decreases |a|
  {
    if |a| == 0 {
      assert a + pat + b == pat + b;
      RemoveAllHead(pat, b);
    } else {
      var s := a + pat + b;
      var t := a[1..] + pat + b;
      assert s[1..] == t && s[0] == a[0];
      NoEarlyOccurrenceInTail(a, pat, b);
      RemoveAllStep(s, pat);
      RemoveAllDropsOccurrence(a[1..], pat, b);
      assert [a[0]] + (a[1..] + RemoveAll(b, pat)) == a + RemoveAll(b, pat);
    }
  }

  /** The pattern occurs in `s` at no position before `n`. */
  predicate NoOccurrenceBefore(s: string, pat: string, n: nat) {
    forall i :: 0 <= i < n ==> !OccursAt(s, pat, i)
  }

  /** Where the pattern does not start, the first character is kept and the scan moves on by one. */
  lemma RemoveAllStep(s: string, pat: string)
    requires |pat| > 0 && |s| > 0 && !OccursAt(s, pat, 0)
    ensures RemoveAll(s, pat) == [s[0]] + RemoveAll(s[1..], pat)
  {
  }

  /** Dropping the first character of `a` keeps the pattern out of the rest of `a`. */
  lemma NoEarlyOccurrenceInTail(a: string, pat: string, b: string)
    requires |a| > 0
    requires NoOccurrenceBefore(a + pat + b, pat, |a|)
    ensures NoOccurrenceBefore(a[1..] + pat + b, pat, |a| - 1)
    ensures !OccursAt(a + pat + b, pat, 0)
  {
    var s := a + pat + b;
    assert s[1..] == a[1..] + pat + b;
    forall i | 0 <= i < |a| - 1 ensures !OccursAt(s[1..], pat, i) {
      ShiftedOccurrence(s, pat, i);
    }
  }

  /** An occurrence in the tail is an occurrence one position further on in the whole. */
  lemma ShiftedOccurrence(s: string, pat: string, i: nat)
    requires |s| > 0
    ensures OccursAt(s[1..], pat, i) <==> OccursAt(s, pat, i + 1)
  {
    if i + |pat| <= |s[1..]| {
      assert s[1..][i..i + |pat|] == s[i + 1..i + 1 + |pat|];
    }
  }

  /** In particular the first occurrence after text without the pattern's first character is removed. */
  lemma RemoveAllAfterCleanPrefix(a: string, pat: string, b: string)
    requires |pat| > 0
    requires forall i :: 0 <= i < |a| ==> a[i] != pat[0]
    ensures RemoveAll(a + pat + b, pat) == a + RemoveAll(b, pat)
  {
    var s := a + pat + b;
    forall i | 0 <= i < |a| ensures !OccursAt(s, pat, i) {
      assert s[i] == a[i];
      if i + |pat| <= |s| {
        assert s[i..i + |pat|][0] == s[i];
      }
    }
    assert NoOccurrenceBefore(s, pat, |a|);
    RemoveAllDropsOccurrence(a, pat, b);
  }

  /** Nothing is removed from a string shorter than the pattern. */
  lemma {:induction false} RemoveAllShort(t: string, pat: string)
    requires 0 < |pat| && |t| < |pat|
    ensures RemoveAll(t, pat) == t
    decreases |t|
  {
    if |t| > 0 {
      RemoveAllShort(t[1..], pat);
    }
  }

  lemma DropClosingFence(body: string)
    requires forall i :: 0 <= i < |body| ==> body[i] != '`'
    ensures RemoveAll(body + "```", "```") == body
  {
    RemoveAllKeepsPrefix(body, "```", "```");
    assert OccursAt("```", "```", 0);
    assert RemoveAll("```", "```") == "";
  }

  /** A prefix without the pattern's first character survives the removal unchanged. */
  lemma {:induction false} RemoveAllKeepsPrefix(body: string, tail: string, pat: string)
    requires |pat| > 0
    requires forall i :: 0 <= i < |body| ==> body[i] != pat[0]
    ensures RemoveAll(body + tail, pat) == body + RemoveAll(tail, pat)
    decreases |body|
  {
    if |body| > 0 {
      var s := body + tail;
      assert s[0] == body[0] && s[0] != pat[0];
      assert !OccursAt(s, pat, 0);
      assert s[1..] == body[1..] + tail;
      RemoveAllStep(s, pat);
      RemoveAllKeepsPrefix(body[1..], tail, pat);
      assert [body[0]] + (body[1..] + RemoveAll(tail, pat)) == body + RemoveAll(tail, pat);
    } else {
      assert body + tail == tail;
    }
  }
}
