/** The streaming extractor of fenced code blocks from Markdown
    (formats/markdown/markdown.ts). The Markdown parser is a parameter. */
module Markdown {
  import opened Wrappers

  /** One code block, as `{ content, lang }`. */
  datatype CodeBlock = CodeBlock(content: string, lang: string)

  /** The number of backticks that end `s`. */
  function TrailingBackticks(s: string): (k: nat)
    ensures k <= |s|
  {
    if s == [] || s[|s| - 1] != '`' then 0 else TrailingBackticks(s[..|s| - 1]) + 1
  }

  /** The run counted is all backticks, and the character before it is not one. */
  lemma {:induction false} TrailingBackticksRun(s: string)
    ensures var k := TrailingBackticks(s);
      (forall i :: |s| - k <= i < |s| ==> s[i] == '`')
      && (k < |s| ==> s[|s| - k - 1] != '`')
  {
    if s != [] && s[|s| - 1] == '`' {
      var t := s[..|s| - 1];
      TrailingBackticksRun(t);
      assert forall i :: 0 <= i < |t| ==> s[i] == t[i];
    }
  }

  /** `trimCodeBlockBoundary`: removes a final newline followed by one or
      more backticks, the start of a closing fence. `$` without the `m` flag
      anchors at the end of the text, so at most one place can match. */
  function TrimCodeBlockBoundary(content: string): string {
    var k := TrailingBackticks(content);
    if k >= 1 && k < |content| && content[|content| - k - 1] == '\n' then content[..|content| - k - 1]
    else content
  }

  function Backticks(n: nat): (r: string)
    ensures |r| == n && forall i :: 0 <= i < n ==> r[i] == '`'
  {
    if n == 0 then "" else Backticks(n - 1) + "`"
  }

  /** The trimmed text is the content itself, or the content less a newline
      and a non-empty run of backticks; it is left alone exactly when there
      is no such ending. */
  lemma {:induction false} TrimCodeBlockBoundaryShape(content: string)
    ensures var r := TrimCodeBlockBoundary(content);
      r == content
      || exists n :: 1 <= n <= |content| && content == r + "\n" + Backticks(n)
    ensures TrimCodeBlockBoundary(content) == content <==>
      !(exists n :: 1 <= n < |content| && content == content[..|content| - n - 1] + "\n" + Backticks(n))
  {
    var k := TrailingBackticks(content);
    TrailingBackticksRun(content);
    if k >= 1 && k < |content| && content[|content| - k - 1] == '\n' {
      var r := content[..|content| - k - 1];
      assert content == r + "\n" + Backticks(k);
      assert 1 <= k < |content|;
    }
    forall n | 1 <= n < |content| && content == content[..|content| - n - 1] + "\n" + Backticks(n)
      ensures TrimCodeBlockBoundary(content) != content
    {
      TrimAppendedFence(content[..|content| - n - 1], n);
    }
  }

  lemma {:induction false} TrailingBackticksExact(s: string, n: nat)
    requires n < |s| && s[|s| - n - 1] == '\n'
    requires forall i :: |s| - n <= i < |s| ==> s[i] == '`'
    ensures TrailingBackticks(s) == n
  {
    TrailingBackticksRun(s);
  }

  /** A closing-fence start appended to any content is removed again. */
  lemma {:induction false} TrimAppendedFence(content: string, n: nat)
    requires n >= 1
    ensures TrimCodeBlockBoundary(content + "\n" + Backticks(n)) == content
  {
    var s := content + "\n" + Backticks(n);
    assert forall i :: |s| - n <= i < |s| ==> s[i] == Backticks(n)[i - (|s| - n)];
    TrailingBackticksExact(s, n);
    assert s[..|s| - n - 1] == content;
  }

  /** Content without backticks is never trimmed. */
  lemma {:induction false} TrimNoBackticks(content: string)
    requires forall i :: 0 <= i < |content| ==> content[i] != '`'
    ensures TrimCodeBlockBoundary(content) == content
  {
  }

  // ---- one call of feed ----

  /** The accumulators of `feed`'s loop: callbacks made so far, and
      `lastUpdate`. */
  datatype ScanState = ScanState(emitted: seq<CodeBlock>, lastUpdate: Option<CodeBlock>)

  /** The block at index `i` differs from the one seen at that index by the
      previous `feed` (or there was none). */
  predicate Changed(current: seq<CodeBlock>, previous: seq<CodeBlock>, i: nat)
    requires i < |current|
  {
    i >= |previous| || current[i].content != previous[i].content || current[i].lang != previous[i].lang
  }

  /** One iteration of `feed`'s loop, for the block at index `i`. */
  function ScanStep(s: ScanState, current: seq<CodeBlock>, previous: seq<CodeBlock>, i: nat): ScanState
    requires i < |current|
  {
    if Changed(current, previous, i) then
      var update := CodeBlock(TrimCodeBlockBoundary(current[i].content), current[i].lang);
      if s.lastUpdate.None? || update.content != s.lastUpdate.value.content then
        if update.content == "" then s
        else ScanState(s.emitted + [update], Some(update))
      else s
    else s
  }

  /** The accumulators after the first `n` blocks. */
  function Scan(current: seq<CodeBlock>, previous: seq<CodeBlock>, last: Option<CodeBlock>, n: nat): ScanState
    requires n <= |current|
  {
    if n == 0 then ScanState([], last)
    else ScanStep(Scan(current, previous, last, n - 1), current, previous, n - 1)
  }

  lemma {:induction false} ScanNext(current: seq<CodeBlock>, previous: seq<CodeBlock>, last: Option<CodeBlock>, i: nat)
    requires i < |current|
    ensures Scan(current, previous, last, i + 1) == ScanStep(Scan(current, previous, last, i), current, previous, i)
  {
  }

  /** The trimmed form of every block that changed, in order: the updates
      `feed` may report. */
  function Candidates(current: seq<CodeBlock>, previous: seq<CodeBlock>, n: nat): seq<CodeBlock>
    requires n <= |current|
  {
    if n == 0 then []
    else
      Candidates(current, previous, n - 1)
      + (if Changed(current, previous, n - 1)
         then [CodeBlock(TrimCodeBlockBoundary(current[n - 1].content), current[n - 1].lang)] else [])
  }

  /** A sequence of updates is deduplicated when no update is empty and no
      update repeats the content of the one before it, starting from `last`. */
  predicate Deduplicated(emitted: seq<CodeBlock>, last: Option<CodeBlock>) {
    (forall i :: 0 <= i < |emitted| ==> emitted[i].content != "")
    && (forall i :: 0 < i < |emitted| ==> emitted[i].content != emitted[i - 1].content)
    && (emitted != [] && last.Some? ==> emitted[0].content != last.value.content)
  }

  /** Two deduplicated runs of updates, the second starting from the last
      update of the first, form one deduplicated run. */
  lemma {:induction false} DeduplicatedAppend(a: seq<CodeBlock>, b: seq<CodeBlock>)
    requires Deduplicated(a, None)
    requires Deduplicated(b, if a == [] then None else Some(a[|a| - 1]))
    ensures Deduplicated(a + b, None)
  {
    var ab := a + b;
    forall i | 0 < i < |ab|
      ensures ab[i].content != ab[i - 1].content
    {
      if i == |a| {
        assert ab[i] == b[0];
      } else if i > |a| {
        assert ab[i] == b[i - |a|] && ab[i - 1] == b[i - 1 - |a|];
      }
    }
  }

  /** What one pass over the blocks reports: only blocks that changed, in
      order, trimmed, none of them empty and none equal in content to the
      update reported just before it; `lastUpdate` ends as the last report. */
  lemma {:induction false} ScanReports(current: seq<CodeBlock>, previous: seq<CodeBlock>, last: Option<CodeBlock>, n: nat)
    requires n <= |current|
    ensures var s := Scan(current, previous, last, n);
      Deduplicated(s.emitted, last)
      && s.lastUpdate == (if s.emitted == [] then last else Some(s.emitted[|s.emitted| - 1]))
      && forall k :: 0 <= k < |s.emitted| ==> s.emitted[k] in Candidates(current, previous, n)
  {
    if n > 0 {
      ScanReports(current, previous, last, n - 1);
    }
  }

  /** A pass that starts after a deduplicated run of updates, from its last
      update, extends it to a deduplicated run that ends with the pass's
      last update. */
  lemma {:induction false} ScanExtends(emitted: seq<CodeBlock>, current: seq<CodeBlock>, previous: seq<CodeBlock>)
    requires Deduplicated(emitted, None)
    ensures var last := if emitted == [] then None else Some(emitted[|emitted| - 1]);
      var all := emitted + Scan(current, previous, last, |current|).emitted;
      Deduplicated(all, None)
      && Scan(current, previous, last, |current|).lastUpdate == (if all == [] then None else Some(all[|all| - 1]))
  {
    var last := if emitted == [] then None else Some(emitted[|emitted| - 1]);
    ScanReports(current, previous, last, |current|);
    var s := Scan(current, previous, last, |current|);
    DeduplicatedAppend(emitted, s.emitted);
    var all := emitted + s.emitted;
    if s.emitted != [] {
      assert all[|all| - 1] == s.emitted[|s.emitted| - 1];
    }
  }

  /** Blocks identical to those of the previous pass report nothing. */
  lemma {:induction false} UnchangedReportsNothing(current: seq<CodeBlock>, last: Option<CodeBlock>, n: nat)
    requires n <= |current|
    ensures Scan(current, current, last, n) == ScanState([], last)
  {
    if n > 0 {
      UnchangedReportsNothing(current, last, n - 1);
    }
  }

  /** A single new, non-empty block whose trimmed content differs from the
      last update is reported. */
  lemma {:induction false} NewBlockReported(b: CodeBlock, last: Option<CodeBlock>)
    requires TrimCodeBlockBoundary(b.content) != ""
    requires last.None? || last.value.content != TrimCodeBlockBoundary(b.content)
    ensures Scan([b], [], last, 1).emitted == [CodeBlock(TrimCodeBlockBoundary(b.content), b.lang)]
  {
  }

  /** `createStreamableCodesFromMarkdownExtractor(callback)`. The Markdown
      parser (`extractCodesFromMarkdown`, which walks the syntax tree of the
      text) is the parameter `parseCodes`; the callback's arguments are
      recorded in `emitted`. */
  class CodesExtractor {
    const parseCodes: string -> seq<CodeBlock>
    var buffer: string
    var previousCodes: seq<CodeBlock>
    var lastUpdate: Option<CodeBlock>
    var emitted: seq<CodeBlock>

    /** Across all feeds, no callback is empty or repeats the content of the
        one before, and `lastUpdate` is the last callback. */
    ghost predicate Valid()
      reads this
    {
      Deduplicated(emitted, None)
      && lastUpdate == (if emitted == [] then None else Some(emitted[|emitted| - 1]))
    }

    constructor (parseCodes: string -> seq<CodeBlock>)
      ensures Valid()
      ensures this.parseCodes == parseCodes
      ensures buffer == "" && previousCodes == [] && lastUpdate == None && emitted == []
    {
      this.parseCodes := parseCodes;
      buffer := "";
      previousCodes := [];
      lastUpdate := None;
      emitted := [];
    }

    /** `feed(chunk)`. */
    method Feed(chunk: string)
      requires Valid()
      modifies this
      ensures Valid()
      ensures buffer == old(buffer) + chunk
      ensures var current := parseCodes(buffer);
        var s := Scan(current, old(previousCodes), old(lastUpdate), |current|);
        emitted == old(emitted) + s.emitted
        && lastUpdate == s.lastUpdate
        && previousCodes == (if current == [] then old(previousCodes) else current)
    {
      buffer := buffer + chunk;
      var currentCodes := parseCodes(buffer);
      if |currentCodes| == 0 {
        return;
      }
      ScanExtends(emitted, currentCodes, previousCodes);
      ReportChanges(currentCodes);
      previousCodes := currentCodes;
    }

    /** The loop of `feed` over the blocks of the buffer: a block that
        changed since the previous feed is trimmed and, unless it is empty or
        repeats the content of the last update, reported and remembered. */
    method ReportChanges(currentCodes: seq<CodeBlock>)
      modifies this
      ensures var s := Scan(currentCodes, previousCodes, old(lastUpdate), |currentCodes|);
        emitted == old(emitted) + s.emitted && lastUpdate == s.lastUpdate
      ensures buffer == old(buffer) && previousCodes == old(previousCodes)
    {
      ghost var emitted0 := emitted;
      ghost var last0 := lastUpdate;
      var i := 0;
      while i < |currentCodes|
        invariant 0 <= i <= |currentCodes|
        invariant buffer == old(buffer) && previousCodes == old(previousCodes)
        invariant var s := Scan(currentCodes, previousCodes, last0, i);
          emitted == emitted0 + s.emitted && lastUpdate == s.lastUpdate
      {
        ScanNext(currentCodes, previousCodes, last0, i);
        var currentCode := currentCodes[i];
        if i >= |previousCodes| || currentCode.content != previousCodes[i].content || currentCode.lang != previousCodes[i].lang {
          var trimmedContent := TrimCodeBlockBoundary(currentCode.content);
          var update := CodeBlock(trimmedContent, currentCode.lang);
          if lastUpdate.None? || update.content != lastUpdate.value.content {
            if update.content == "" {
              i := i + 1;
              continue;
            }
            ghost var before := Scan(currentCodes, previousCodes, last0, i).emitted;
            assert emitted0 + (before + [update]) == (emitted0 + before) + [update];
            emitted := emitted + [update];
            lastUpdate := Some(update);
          }
        }
        i := i + 1;
      }
    }

    /** `end()`: the blocks of the whole buffer. */
    method End() returns (codes: seq<CodeBlock>)
      ensures codes == parseCodes(buffer)
    {
      codes := parseCodes(buffer);
    }
  }
}
