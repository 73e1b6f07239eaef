/** The string operations the pipeline relies on: searching, trimming, counting words. */
module Texts {

  /** The characters that `str.isspace` accepts. */
  predicate IsSpace(c: char) {
    || '\t' <= c <= '\r'
    || '\U{1c}' <= c <= ' '
    || c == '\U{85}' || c == '\U{a0}' || c == '\U{1680}' || c == '\U{202f}' || c == '\U{205f}' || c == '\U{3000}'
    || '\U{2028}' <= c <= '\U{2029}'
    || '\U{2000}' <= c <= '\U{200a}'
  }

  /** Of the ASCII characters these ten are spaces, and no others. */
  lemma AsciiSpaces(c: char)
    requires c <= '~'
    ensures IsSpace(c) <==> c in " \t\n\r\U{b}\U{c}\U{1c}\U{1d}\U{1e}\U{1f}"
  {
  }

  ghost predicate AllSpace(s: string) {
    forall i :: 0 <= i < |s| ==> IsSpace(s[i])
  }

  /** No space at either end. */
  predicate Trim(s: string) {
    s != [] ==> !IsSpace(s[0]) && !IsSpace(s[|s| - 1])
  }

  /** The first position at or after `i` that does not hold a space. */
  function SkipSpaces(s: string, i: nat): (r: nat)
    requires i <= |s|
    ensures i <= r <= |s| && (r < |s| ==> !IsSpace(s[r]))
    ensures forall k :: i <= k < r ==> IsSpace(s[k])
    decreases |s| - i
  {
    if i < |s| && IsSpace(s[i]) then SkipSpaces(s, i + 1) else i
  }

  /** The last position in [lo, hi] that does not follow a space, or `lo`. */
  function DropSpaces(s: string, lo: nat, hi: nat): (r: nat)
    requires lo <= hi <= |s|
    ensures lo <= r <= hi && (r > lo ==> !IsSpace(s[r - 1]))
    ensures forall k :: r <= k < hi ==> IsSpace(s[k])
  {
    if lo < hi && IsSpace(s[hi - 1]) then DropSpaces(s, lo, hi - 1) else hi
  }

  function StripStart(s: string): nat {
    SkipSpaces(s, 0)
  }

  function StripEnd(s: string): (r: nat)
    ensures StripStart(s) <= r <= |s|
  {
    DropSpaces(s, StripStart(s), |s|)
  }

  function Strip(s: string): (r: string)
    ensures Trim(r)
  {
    s[StripStart(s)..StripEnd(s)]
  }

  lemma StartIs(s: string, b: nat)
    requires b <= |s| && (forall k :: 0 <= k < b ==> IsSpace(s[k])) && (b < |s| ==> !IsSpace(s[b]))
    ensures StripStart(s) == b
  {
  }

  lemma EndIs(s: string, b: nat, e: nat)
    requires StripStart(s) == b < e <= |s| && !IsSpace(s[e - 1]) && (forall k :: e <= k < |s| ==> IsSpace(s[k]))
    ensures StripEnd(s) == e
  {
  }

  /** A trimmed text between spaces is what strip returns. */
  lemma StripUnique(before: string, body: string, after: string)
    requires AllSpace(before) && AllSpace(after) && Trim(body)
    ensures Strip(before + body + after) == body
  {
    var s := before + body + after;
    var b, e := |before|, |before| + |body|;
    assert s[b..e] == body;
    assert forall k :: 0 <= k < b ==> s[k] == before[k];
    assert forall k :: e <= k < |s| ==> s[k] == after[k - e];
    if body == [] {
      StartIs(s, |s|);
    } else {
      assert s[b] == body[0] && s[e - 1] == body[|body| - 1];
      StartIs(s, b);
      EndIs(s, b, e);
    }
  }

  /** Strip removes space from both ends and nothing else. */
  lemma StripDecomposes(s: string) returns (before: string, after: string)
    ensures AllSpace(before) && AllSpace(after) && s == before + Strip(s) + after
  {
    before, after := s[..StripStart(s)], s[StripEnd(s)..];
  }

  lemma StripIdempotent(s: string)
    ensures Strip(Strip(s)) == Strip(s)
  {
    StripUnique([], Strip(s), []);
    assert [] + Strip(s) + [] == Strip(s);
  }

  // ---------- searching ----------

  predicate OccursAt(s: string, pat: string, i: int) {
    0 <= i <= |s| - |pat| && s[i..i + |pat|] == pat
  }

  ghost predicate Contains(s: string, pat: string) {
    exists i :: OccursAt(s, pat, i)
  }

  /** `s.find(pat, from)`: the first occurrence at or after `from`, or -1. */
  function Find(s: string, pat: string, from: nat): (r: int)
    ensures r == -1 || (from <= r && OccursAt(s, pat, r))
    ensures forall i :: from <= i && (r == -1 || i < r) ==> !OccursAt(s, pat, i)
    decreases |s| - from
  {
    if from > |s| - |pat| then -1
    else if OccursAt(s, pat, from) then from
    else Find(s, pat, from + 1)
  }

  /** The last occurrence that begins before `bound`, or -1. */
  function FindLast(s: string, pat: string, bound: nat): (r: int)
    ensures r == -1 || (0 <= r < bound && OccursAt(s, pat, r))
    ensures forall i :: r < i < bound ==> !OccursAt(s, pat, i)
  {
    if bound == 0 then -1
    else if OccursAt(s, pat, bound - 1) then bound - 1
    else FindLast(s, pat, bound - 1)
  }

  // ---------- words ----------

  /** `len(s.split())`: the number of maximal runs of non-space characters. */
  function WordCount(s: string): nat {
    if s == [] then 0
    else
      var n := |s| - 1;
      WordCount(s[..n]) + (if StartsWord(s[..n], s[n]) then 1 else 0)
  }

  /** After `s`, the character begins a new word. */
  predicate StartsWord(s: string, c: char) {
    !IsSpace(c) && (s == "" || IsSpace(s[|s| - 1]))
  }

  predicate IsWord(s: string) {
    s != "" && forall i :: 0 <= i < |s| ==> !IsSpace(s[i])
  }

  /** The words with the gaps before, between and after them. */
  function Spread(words: seq<string>, gaps: seq<string>): string
    requires |gaps| == |words| + 1
  {
    var n := |words|;
    if n == 0 then gaps[0] else Spread(words[..n - 1], gaps[..n]) + words[n - 1] + gaps[n]
  }

  ghost predicate WellSpread(words: seq<string>, gaps: seq<string>) {
    && |gaps| == |words| + 1
    && (forall i :: 0 <= i < |words| ==> IsWord(words[i]))
    && (forall i :: 0 <= i < |gaps| ==> AllSpace(gaps[i]))
    && (forall i :: 0 < i < |words| ==> gaps[i] != "")
  }

  /** One more character counts if it is no space and nothing or a space is before it. */
  lemma OneMore(s: string, c: char)
    ensures WordCount(s + [c]) ==
              WordCount(s) + (if StartsWord(s, c) then 1 else 0)
  {
    assert (s + [c])[..|s|] == s;
  }

  lemma {:induction false} SpacesAddNoWord(s: string, gap: string)
    requires AllSpace(gap)
    ensures WordCount(s + gap) == WordCount(s)
  {
    if gap == "" {
      assert s + gap == s;
    } else {
      var n := |gap| - 1;
      SpacesAddNoWord(s, gap[..n]);
      OneMore(s + gap[..n], gap[n]);
      assert s + gap == (s + gap[..n]) + [gap[n]];
    }
  }

  lemma {:induction false} WordAddsOne(s: string, word: string)
    requires IsWord(word) && (s == "" || IsSpace(s[|s| - 1]))
    ensures WordCount(s + word) == WordCount(s) + 1
    decreases |word|
  {
    var n := |word| - 1;
    var front := s + word[..n];
    assert s + word == front + [word[n]];
    OneMore(front, word[n]);
    if n == 0 {
      assert front == s;
    } else {
      WordAddsOne(s, word[..n]);
      assert front[|front| - 1] == word[n - 1];
    }
  }

  /** n words with white space between them, and any around them, count as n. */
  lemma {:induction false} WordsAreCounted(words: seq<string>, gaps: seq<string>)
    requires WellSpread(words, gaps)
    ensures WordCount(Spread(words, gaps)) == |words|
    decreases |words|
  {
    var n := |words|;
    if n == 0 {
      SpacesAddNoWord("", gaps[0]);
      assert "" + gaps[0] == gaps[0];
    } else {
      var front := Spread(words[..n - 1], gaps[..n]);
      WordsAreCounted(words[..n - 1], gaps[..n]);
      EndsInGap(words[..n - 1], gaps[..n]);
      WordAddsOne(front, words[n - 1]);
      SpacesAddNoWord(front + words[n - 1], gaps[n]);
    }
  }

  lemma EndsInGap(words: seq<string>, gaps: seq<string>)
    requires WellSpread(words, gaps) && (words != [] ==> gaps[|words|] != "")
    ensures var s := Spread(words, gaps); s == "" || IsSpace(s[|s| - 1])
  {
    var gap := gaps[|words|];
    if gap != "" {
      assert Spread(words, gaps)[|Spread(words, gaps)| - 1] == gap[|gap| - 1];
    }
  }
}
