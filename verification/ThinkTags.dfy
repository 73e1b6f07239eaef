/** Dropping the reasoning part of a model's answer. */
module ThinkTags {
  import opened Texts

  const OPEN_TAG := "<think>"
  const CLOSE_TAG := "</think>"

  /** The non-greedy substitution of `<think>...</think>` by nothing. */
  function RemoveBlocks(s: string): string
    decreases |s|
  {
    var i := Find(s, OPEN_TAG, 0);
    if i == -1 then s
    else
      var j := Find(s, CLOSE_TAG, i + |OPEN_TAG|);
      if j == -1 then s else s[..i] + RemoveBlocks(s[j + |CLOSE_TAG|..])
  }

  function StripThinkTags(text: string): string {
    var last := FindLast(text, CLOSE_TAG, |text|);
    if last != -1 then
      var after := Strip(text[last + |CLOSE_TAG|..]);
      if after != "" then after else Strip(text)
    else
      var cleaned := Strip(RemoveBlocks(text));
      if cleaned != "" then cleaned else Strip(text)
  }

  /** Without a closing tag the substitution finds nothing: the whole function is a trim. */
  lemma RegexBranchIsTrim(text: string)
    requires !Contains(text, CLOSE_TAG)
    ensures StripThinkTags(text) == Strip(text)
  {
    var i := Find(text, OPEN_TAG, 0);
    if i != -1 {
      var j := Find(text, CLOSE_TAG, i + |OPEN_TAG|);
    }
    assert RemoveBlocks(text) == text;
  }

  lemma SliceContains(s: string, pat: string, from: nat, upto: nat)
    requires from <= upto <= |s| && Contains(s[from..upto], pat)
    ensures exists i :: from <= i <= upto - |pat| && OccursAt(s, pat, i)
  {
    var slice := s[from..upto];
    var i :| OccursAt(slice, pat, i);
    forall k | 0 <= k < |pat|
      ensures s[from + i..from + i + |pat|][k] == pat[k]
    {
      assert slice[i..i + |pat|][k] == slice[i + k] == s[from + i + k];
    }
    assert OccursAt(s, pat, from + i);
  }

  lemma TrimmedHasNoTag(text: string)
    requires !Contains(text, CLOSE_TAG)
    ensures !Contains(Strip(text), CLOSE_TAG)
  {
    var before, after := StripDecomposes(text);
    var b, n := |before|, |Strip(text)|;
    assert Strip(text) == text[b..b + n];
    if Contains(Strip(text), CLOSE_TAG) {
      SliceContains(text, CLOSE_TAG, b, b + n);
    }
  }

  lemma TagCharacters(k: nat)
    requires k < |CLOSE_TAG|
    ensures !IsSpace(CLOSE_TAG[k]) && (k > 0 ==> CLOSE_TAG[k] != '<') && CLOSE_TAG[0] == '<'
  {
  }

  lemma NoTagAt(s: string, i: nat, k: nat)
    requires k < |CLOSE_TAG| && i + k < |s| && s[i + k] != CLOSE_TAG[k]
    ensures !OccursAt(s, CLOSE_TAG, i)
  {
    if i + |CLOSE_TAG| <= |s| {
      assert s[i..i + |CLOSE_TAG|][k] == s[i + k];
    }
  }

  /** After a closing tag no later occurrence can begin, not even one overlapping the tag. */
  lemma LastTag(reasoning: string, before: string, body: string, after: string)
    requires AllSpace(before) && AllSpace(after) && !Contains(body, CLOSE_TAG)
    ensures var text := reasoning + CLOSE_TAG + before + body + after;
            FindLast(text, CLOSE_TAG, |text|) == |reasoning|
  {
    var text := reasoning + CLOSE_TAG + before + body + after;
    var r := |reasoning|;
    var b := r + |CLOSE_TAG| + |before|;
    assert text[r..r + |CLOSE_TAG|] == CLOSE_TAG;
    assert OccursAt(text, CLOSE_TAG, r);
    forall i | r < i <= |text| - |CLOSE_TAG|
      ensures !OccursAt(text, CLOSE_TAG, i)
    {
      TagCharacters(0);
      if i < r + |CLOSE_TAG| {
        TagCharacters(i - r);
        assert text[i] == CLOSE_TAG[i - r];
        NoTagAt(text, i, 0);
      } else if i < b {
        assert text[i] == before[i - r - |CLOSE_TAG|];
        NoTagAt(text, i, 0);
      } else if i + |CLOSE_TAG| <= b + |body| {
        assert body[i - b..i - b + |CLOSE_TAG|] == text[i..i + |CLOSE_TAG|];
        assert !OccursAt(body, CLOSE_TAG, i - b);
      } else {
        var k := |CLOSE_TAG| - 1;
        TagCharacters(k);
        assert text[i + k] == after[i + k - b - |body|];
        NoTagAt(text, i, k);
      }
    }
  }

  /**
   Whatever the reasoning contains, braces and earlier closing tags included, stripping recovers
   exactly the body that follows the last closing tag.
   */
  lemma StripRecoversBody(reasoning: string, before: string, body: string, after: string)
    requires AllSpace(before) && AllSpace(after)
    requires body != "" && Trim(body) && !Contains(body, CLOSE_TAG)
    ensures StripThinkTags(reasoning + CLOSE_TAG + before + body + after) == body
  {
    var text := reasoning + CLOSE_TAG + before + body + after;
    LastTag(reasoning, before, body, after);
    assert text[|reasoning| + |CLOSE_TAG|..] == before + body + after;
    StripUnique(before, body, after);
  }

  /** Trimming a text that ends in a closing tag keeps the tag. */
  lemma StripEndingInTag(reasoning: string, space: string) returns (kept: string)
    requires AllSpace(space)
    ensures Strip(reasoning + CLOSE_TAG + space) == kept + CLOSE_TAG
  {
    var start := StripStart(reasoning);
    kept := reasoning[start..];
    var body := kept + CLOSE_TAG;
    assert Trim(body) by {
      TagCharacters(0);
      TagCharacters(|CLOSE_TAG| - 1);
      assert body[|body| - 1] == CLOSE_TAG[|CLOSE_TAG| - 1];
      assert body[0] == if kept == [] then CLOSE_TAG[0] else kept[0];
    }
    StripUnique(reasoning[..start], body, space);
    assert reasoning[..start] + body + space == reasoning + CLOSE_TAG + space;
  }

  /** A text that ends with a closing tag is only trimmed. */
  lemma NothingAfterTag(reasoning: string, space: string)
    requires AllSpace(space)
    ensures StripThinkTags(reasoning + CLOSE_TAG + space) == Strip(reasoning + CLOSE_TAG + space)
  {
    var text := reasoning + CLOSE_TAG + space;
    assert FindLast(text, CLOSE_TAG, |text|) == |reasoning| by {
      LastTag(reasoning, space, [], []);
      assert text + [] + [] == text;
    }
    assert Strip(text[|reasoning| + |CLOSE_TAG|..]) == [] by {
      assert text[|reasoning| + |CLOSE_TAG|..] == space + [] + [];
      StripUnique(space, [], []);
    }
  }

  /** Stripping the reasoning a second time changes nothing. */
  lemma StripThinkTagsIdempotent(text: string)
    ensures StripThinkTags(StripThinkTags(text)) == StripThinkTags(text)
  {
    var last := FindLast(text, CLOSE_TAG, |text|);
    if last == -1 {
      assert !Contains(text, CLOSE_TAG);
      RegexBranchIsTrim(text);
      PlainTextStays(text);
    } else {
      var rest := text[last + |CLOSE_TAG|..];
      if Strip(rest) != "" {
        NoTagAfterLast(text, last);
        PlainTextStays(rest);
        assert StripThinkTags(text) == Strip(rest);
      } else {
        TagOnlyStays(text, text[..last], rest);
      }
    }
  }

  lemma NoTagAfterLast(text: string, last: nat)
    requires last == FindLast(text, CLOSE_TAG, |text|)
    ensures !Contains(text[last + |CLOSE_TAG|..], CLOSE_TAG)
  {
    var rest := text[last + |CLOSE_TAG|..];
    if Contains(rest, CLOSE_TAG) {
      assert rest == text[last + |CLOSE_TAG|..|text|];
      SliceContains(text, CLOSE_TAG, last + |CLOSE_TAG|, |text|);
    }
  }

  lemma TagOnlyStays(text: string, reasoning: string, space: string)
    requires text == reasoning + CLOSE_TAG + space && Strip(space) == ""
    ensures StripThinkTags(StripThinkTags(text)) == StripThinkTags(text)
  {
    var before, after := StripDecomposes(space);
    assert space == before + after;
    assert AllSpace(space);
    NothingAfterTag(reasoning, space);
    var kept := StripEndingInTag(reasoning, space);
    assert kept + CLOSE_TAG + [] == kept + CLOSE_TAG;
    NothingAfterTag(kept, []);
    StripIdempotent(text);
  }

  lemma PlainTextStays(text: string)
    requires !Contains(text, CLOSE_TAG)
    ensures StripThinkTags(Strip(text)) == Strip(text)
  {
    TrimmedHasNoTag(text);
    RegexBranchIsTrim(Strip(text));
    StripIdempotent(text);
  }
}
