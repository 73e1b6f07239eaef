/**
 Finding the JSON object in a model's answer by scanning for balanced blocks.  `parse` stands for
 the JSON parser of section 4 of RFC 8259.
 */
module Extractor {
  import opened Common
  import opened Records
  import opened Texts
  import opened ThinkTags

  type Parser = string -> Option<Json>

  // ---------- balanced blocks ----------

  /** The net number of open braces in s[from..to]. */
  function Height(s: string, from: nat, upto: nat): int
    requires from <= upto <= |s|
    decreases upto - from
  {
    if from == upto then 0
    else Height(s, from, upto - 1) + (if s[upto - 1] == '{' then 1 else if s[upto - 1] == '}' then -1 else 0)
  }

  /** s[from..to] starts with a brace, closes it with its last character and not before. */
  ghost predicate IsBlock(s: string, from: int, upto: int) {
    && 0 <= from < upto <= |s| && s[from] == '{'
    && Height(s, from, upto) == 0
    && (forall k :: from < k < upto ==> Height(s, from, k) > 0)
  }

  /** The nesting depth at a position in the whole text; a closing brace at depth 0 is ignored. */
  function Depth(s: string, at: nat): nat
    requires at <= |s|
  {
    if at == 0 then 0
    else
      var d := Depth(s, at - 1);
      if s[at - 1] == '{' then d + 1 else if s[at - 1] == '}' && d > 0 then d - 1 else d
  }

  /** A balanced block that is not nested in another brace, closed or not. */
  ghost predicate TopBlock(s: string, from: int, upto: int) {
    IsBlock(s, from, upto) && Depth(s, from) == 0
  }

  ghost predicate FirstParsed(s: string, parse: Parser, from: int, upto: int) {
    && TopBlock(s, from, upto) && parse(s[from..upto]).Some?
    && (forall i, j :: TopBlock(s, i, j) && i < from ==> parse(s[i..j]) == None)
  }

  ghost predicate SomeFirst(s: string, parse: Parser) {
    exists i, j :: FirstParsed(s, parse, i, j)
  }

  ghost function FirstBlock(s: string, parse: Parser): (span: (int, int))
    requires SomeFirst(s, parse)
    ensures FirstParsed(s, parse, span.0, span.1)
  {
    var i, j :| FirstParsed(s, parse, i, j);
    (i, j)
  }

  /** The parse of the first top-level block that parses, if there is one. */
  ghost function Extracted(s: string, parse: Parser): Option<Json> {
    if SomeFirst(s, parse)
    then parse(s[FirstBlock(s, parse).0..FirstBlock(s, parse).1])
    else None
  }

  lemma BlockEndUnique(s: string, from: int, upto: int, upto': int)
    requires IsBlock(s, from, upto) && IsBlock(s, from, upto')
    ensures upto == upto'
  {
  }

  lemma FirstParsedUnique(s: string, parse: Parser, i: int, j: int)
    requires FirstParsed(s, parse, i, j)
    ensures Extracted(s, parse) == parse(s[i..j])
  {
    var (i', j') := FirstBlock(s, parse);
    if i == i' {
      BlockEndUnique(s, i, j, j');
    }
  }

  /** From an opening brace at depth 0 the depth is the height, as long as that stays positive. */
  lemma {:induction false} DepthIsHeight(s: string, from: nat, upto: nat)
    requires from < upto <= |s| && s[from] == '{' && Depth(s, from) == 0
    requires forall k :: from < k < upto ==> Height(s, from, k) > 0
    ensures Height(s, from, upto) >= 0 && Depth(s, upto) == Height(s, from, upto)
    decreases upto
  {
    if upto == from + 1 {
      assert Height(s, from, from) == 0;
    } else {
      DepthIsHeight(s, from, upto - 1);
    }
  }

  /** Counts braces from an opening one until they balance or the text ends. */
  method MatchBrace(s: string, start: nat) returns (end: nat, depth: nat)
    requires start < |s| && s[start] == '{'
    ensures start < end <= |s| && depth == Height(s, start, end)
    ensures forall k :: start < k < end ==> Height(s, start, k) > 0
    ensures depth == 0 || end == |s|
  {
    end, depth := start, 0;
    while end < |s|
      invariant start <= end <= |s| && depth == Height(s, start, end)
      invariant end > start ==> depth > 0
      invariant forall k :: start < k < end ==> Height(s, start, k) > 0
    {
      if s[end] == '{' {
        depth := depth + 1;
      } else if s[end] == '}' {
        depth := depth - 1;
        if depth == 0 {
          return end + 1, 0;
        }
      }
      end := end + 1;
    }
  }

  lemma NoneParsesUpTo(s: string, parse: Parser, start: nat, end: nat)
    requires TopBlock(s, start, end) && parse(s[start..end]) == None
    requires forall i, j :: TopBlock(s, i, j) && i < start ==> parse(s[i..j]) == None
    requires forall i, j :: TopBlock(s, i, j) && start < i ==> end <= i
    ensures forall i, j :: TopBlock(s, i, j) && i < end ==> parse(s[i..j]) == None
  {
    forall i, j | TopBlock(s, i, j) && i < end
      ensures parse(s[i..j]) == None
    {
      if i == start {
        BlockEndUnique(s, start, end, j);
      }
    }
  }

  lemma NothingParses(s: string, parse: Parser)
    requires forall i, j :: TopBlock(s, i, j) ==> parse(s[i..j]) == None
    ensures Extracted(s, parse) == None
  {
  }

  /** The scan over the text left after stripping the reasoning. */
  method ScanBlocks(s: string, parse: Parser) returns (found: Option<Json>)
    ensures found == Extracted(s, parse)
  {
    var searchStart := 0;
    while true
      invariant searchStart <= |s| && Depth(s, searchStart) == 0
      invariant forall i, j :: TopBlock(s, i, j) && i < searchStart ==> parse(s[i..j]) == None
      decreases |s| - searchStart
    {
      var start := Find(s, "{", searchStart);
      if start == -1 {
        NoOpeningLeft(s, searchStart, |s|);
        NothingParses(s, parse);
        return None;
      }
      NoOpeningLeft(s, searchStart, start);
      assert s[start..start + 1] == "{";
      var end, depth := MatchBrace(s, start);
      NothingNestedIsTop(s, start, end);
      if depth != 0 {
        NothingParses(s, parse);
        return None;
      }
      assert TopBlock(s, start, end);
      if parse(s[start..end]).Some? {
        FirstParsedUnique(s, parse, start, end);
        return parse(s[start..end]);
      }
      NoneParsesUpTo(s, parse, start, end);
      searchStart := end;
    }
  }

  method ExtractJsonObject(text: string, parse: Parser) returns (found: Option<Json>)
    ensures found == Extracted(SearchText(text), parse)
  {
    var cleaned := StripThinkTags(text);
    found := ScanBlocks(if cleaned != "" then cleaned else text, parse);
  }

  /** The text that is scanned: the stripped answer, or all of it when nothing is left. */
  function SearchText(text: string): string {
    var cleaned := StripThinkTags(text);
    if cleaned != "" then cleaned else text
  }

  lemma {:induction false} NoOpeningLeft(s: string, from: nat, upto: nat)
    requires from <= upto <= |s| && Depth(s, from) == 0
    requires forall i :: from <= i < upto ==> !OccursAt(s, "{", i)
    ensures Depth(s, upto) == 0
    ensures forall i, j :: from <= i < upto ==> !TopBlock(s, i, j)
    decreases upto
  {
    forall i | from <= i < upto
      ensures s[i] != '{'
    {
      assert s[i..i + 1] == [s[i]];
      assert !OccursAt(s, "{", i);
    }
    if from < upto {
      NoOpeningLeft(s, from, upto - 1);
    }
  }

  /** Past an opening brace nothing is top level until its height is back to zero. */
  lemma NothingNestedIsTop(s: string, start: nat, end: nat)
    requires start < end <= |s| && s[start] == '{' && Depth(s, start) == 0
    requires forall k :: start < k < end ==> Height(s, start, k) > 0
    requires Height(s, start, end) == 0 || end == |s|
    ensures Height(s, start, end) >= 0 && Depth(s, end) == Height(s, start, end)
    ensures forall i, j :: TopBlock(s, i, j) && start < i ==> end <= i
    ensures Height(s, start, end) != 0 ==> forall i, j :: TopBlock(s, i, j) ==> i < start
  {
    forall k | start < k <= end
      ensures Depth(s, k) == Height(s, start, k)
    {
      DepthIsHeight(s, start, k);
    }
  }

  /** Extraction succeeds exactly when some top-level balanced block parses. */
  lemma ExtractedIffTopBlockParses(s: string, parse: Parser)
    ensures Extracted(s, parse).Some? <==> exists i, j :: TopBlock(s, i, j) && parse(s[i..j]).Some?
  {
    if exists i, j :: TopBlock(s, i, j) && parse(s[i..j]).Some? {
      var i, j :| TopBlock(s, i, j) && parse(s[i..j]).Some?;
      FirstExists(s, parse, i, j);
    }
  }

  lemma {:induction false} FirstExists(s: string, parse: Parser, i: int, j: int)
    requires TopBlock(s, i, j) && parse(s[i..j]).Some?
    ensures exists i', j' :: FirstParsed(s, parse, i', j')
    decreases i
  {
    if !FirstParsed(s, parse, i, j) {
      var i', j' :| TopBlock(s, i', j') && i' < i && parse(s[i'..j']).Some?;
      FirstExists(s, parse, i', j');
    }
  }

  /** Prose around one object does not matter as long as no brace opens before it. */
  lemma ObjectInProse(before: string, block: string, after: string, parse: Parser)
    requires '{' !in before && IsBlock(block, 0, |block|) && parse(block).Some?
    ensures Extracted(before + block + after, parse) == parse(block)
  {
    var s := before + block + after;
    var b := |before|;
    assert forall i :: 0 <= i < b ==> s[i] == before[i];
    forall i | 0 <= i < b
      ensures !OccursAt(s, "{", i)
    {
      assert s[i..i + 1] == [s[i]];
    }
    NoOpeningLeft(s, 0, b);
    forall k | b <= k <= b + |block|
      ensures Height(s, b, k) == Height(block, 0, k - b)
    {
      HeightShifts(before, block, after, k - b);
    }
    assert IsBlock(s, b, b + |block|);
    assert s[b..b + |block|] == block;
    assert FirstParsed(s, parse, b, b + |block|);
    FirstParsedUnique(s, parse, b, b + |block|);
  }

  lemma {:induction false} HeightShifts(before: string, block: string, after: string, k: nat)
    requires k <= |block|
    ensures Height(before + block + after, |before|, |before| + k) == Height(block, 0, k)
    decreases k
  {
    if k > 0 {
      HeightShifts(before, block, after, k - 1);
      assert (before + block + after)[|before| + k - 1] == block[k - 1];
    }
  }

  /** A block nested in one that does not parse is never tried. */
  lemma NestedBlockIsNotTried(parse: Parser)
    requires parse("{}").Some? && parse("{x {}}") == None
    ensures var s := "{x {}}";
            IsBlock(s, 3, 5) && parse(s[3..5]).Some? && Extracted(s, parse) == None
  {
    var s := "{x {}}";
    assert Height(s, 3, 3) == 0 && Height(s, 3, 4) == 1 && Height(s, 3, 5) == 0;
    assert s[3..5] == "{}";
    assert Height(s, 0, 0) == 0 && Height(s, 0, 1) == 1 && Height(s, 0, 2) == 1;
    assert Height(s, 0, 3) == 1 && Height(s, 0, 4) == 2 && Height(s, 0, 5) == 1 && Height(s, 0, 6) == 0;
    NothingNestedIsTop(s, 0, 6);
    forall i, j | TopBlock(s, i, j)
      ensures parse(s[i..j]) == None
    {
      BlockEndUnique(s, 0, 6, j);
      assert s[0..6] == s;
    }
  }

  // ---------- the whole content path ----------

  /** The content of an answer: the stripped text as JSON, or else the first block in it. */
  method ParseContent(content: string, parse: Parser) returns (result: Option<Json>)
    ensures result == Content(content, parse)
  {
    result := parse(StripThinkTags(content));
    if result == None {
      result := ExtractJsonObject(content, parse);
    }
  }

  ghost function Content(content: string, parse: Parser): Option<Json> {
    if parse(StripThinkTags(content)).Some? then parse(StripThinkTags(content))
    else Extracted(SearchText(content), parse)
  }

  /** A well-formed body after any amount of reasoning is what the content path returns. */
  lemma ReasoningIsIgnored(reasoning: string, before: string, body: string, after: string, parse: Parser)
    requires AllSpace(before) && AllSpace(after)
    requires body != "" && Trim(body) && !Contains(body, CLOSE_TAG) && parse(body).Some?
    ensures Content(reasoning + CLOSE_TAG + before + body + after, parse) == parse(body)
  {
    StripRecoversBody(reasoning, before, body, after);
  }

  /** After any reasoning, braces included, an object in brace-free prose is what the content path returns. */
  lemma ObjectAfterReasoning(reasoning: string, before: string, prose: string, block: string, rest: string,
                             after: string, parse: Parser)
    requires AllSpace(before) && AllSpace(after)
    requires var body := prose + block + rest; Trim(body) && !Contains(body, "</think>") && parse(body) == None
    requires '{' !in prose && IsBlock(block, 0, |block|) && parse(block).Some?
    ensures Content(reasoning + "</think>" + before + (prose + block + rest) + after, parse) == parse(block)
  {
    var body := prose + block + rest;
    StripRecoversBody(reasoning, before, body, after);
    ObjectInProse(prose, block, rest, parse);
  }
}
