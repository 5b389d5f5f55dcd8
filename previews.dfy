/**
 * The display helpers of the three views: the editor preview and line count
 * of the projects view, the markdown-stripped lesson preview of the learn
 * view, and the word and character statistics of the studio view.
 */
module Previews {
  import opened JsText

  const ELLIPSIS := "..."
  const EMPTY_PREVIEW := "(empty)"
  const NO_CONTENT_PREVIEW := "(no content)"
  /** The default `maxLength` of the editor preview. */
  const EDITOR_PREVIEW_LENGTH: nat := 100
  /** The default `maxLength` of the lesson content preview. */
  const LESSON_PREVIEW_LENGTH: nat := 200

  function Min(a: nat, b: nat): nat {
    if a <= b then a else b
  }

  /**
   * Cut `s` after `maxLength` characters and mark the cut with an ellipsis;
   * a string that fits is kept whole.
   */
  function Truncate(s: string, maxLength: nat): (r: string)
    ensures s[..Min(|s|, maxLength)] <= r
    ensures |s| <= maxLength ==> r == s
    ensures |s| > maxLength ==> |r| == maxLength + |ELLIPSIS| && r[maxLength..] == ELLIPSIS
    ensures |s| > maxLength ==> r == s[..maxLength] + ELLIPSIS
  {
    if |s| <= maxLength then s else s[..maxLength] + ELLIPSIS
  }

  /**
   * `getPreview(text, maxLength)` of the projects view: text that fits is
   * shown whole, with a placeholder for the empty text; longer text is cut.
   */
  function GetPreview(text: string, maxLength: nat): (r: string)
    ensures r != []
    ensures |text| <= maxLength ==> r == if text == [] then EMPTY_PREVIEW else text
    ensures |text| > maxLength ==> |r| == maxLength + |ELLIPSIS| && r == text[..maxLength] + ELLIPSIS
  {
    if |text| <= maxLength then (if text == [] then EMPTY_PREVIEW else text)
    else Truncate(text, maxLength)
  }

  /** The "Lines" statistic of the projects view: `content ? content.split('\n').length : 0`. */
  function LineCount(content: string): (n: nat)
    ensures content == [] ==> n == 0
    ensures content != [] ==> n == CountChar(content, '\n') + 1
  {
    if content == [] then 0 else |SplitOn(content, '\n')|
  }

  // ---------------------------------------------------------------------------
  // content.replace(/^#+\s*/gm, '')
  // ---------------------------------------------------------------------------

  /** A match of `^#+` can begin at `i`: a `#` at the start of `s` or of a line. */
  function HeaderAt(s: string, i: nat): (b: bool)
    ensures b ==> i < |s| && s[i] == '#'
    ensures b && i > 0 ==> IsLineTerminator(s[i - 1])
    ensures i < |s| && s[i] == '#' && (i == 0 || IsLineTerminator(s[i - 1])) ==> b
  {
    i < |s| && s[i] == '#' && (i == 0 || IsLineTerminator(s[i - 1]))
  }

  /** No line of `s` begins with `#`. */
  predicate NoHeaderLine(s: string) {
    forall i :: 0 <= i < |s| ==> !HeaderAt(s, i)
  }

  /** The end of the run of `#` that starts at `i`. */
  function SkipHashes(s: string, i: nat): (j: nat)
    requires i <= |s|
    ensures i <= j <= |s|
    ensures forall k :: i <= k < j ==> s[k] == '#'
    ensures j == |s| || s[j] != '#'
    decreases |s| - i
  {
    if i < |s| && s[i] == '#' then SkipHashes(s, i + 1) else i
  }

  /**
   * The end of the greedy match of `#+\s*` that starts at `i`; `\s*` may run
   * across line breaks.
   */
  function HeaderEnd(s: string, i: nat): (j: nat)
    requires HeaderAt(s, i)
    ensures i < j <= |s|
    ensures forall k :: i <= k < j ==> s[k] == '#' || IsWhitespace(s[k])
    ensures j == |s| || !IsWhitespace(s[j])
  {
    SkipWhitespace(s, SkipHashes(s, i))
  }

  /**
   * The global replacement scanning from `i`: a match that begins at a
   * position is dropped and scanning resumes after it; any other character
   * is kept. `^` still looks at the character before the position in the
   * original string, even when that character belonged to the previous match.
   */
  function StripFrom(s: string, i: nat): (r: string)
    requires i <= |s|
    ensures |r| <= |s| - i
    decreases |s| - i
  {
    if i == |s| then []
    else if HeaderAt(s, i) then StripFrom(s, HeaderEnd(s, i))
    else [s[i]] + StripFrom(s, i + 1)
  }

  /** The global multiline replacement of `^#+\s*` by `''`: header markers at line starts removed. */
  function StripHeaders(content: string): (r: string)
    ensures |r| <= |content|
  {
    StripFrom(content, 0)
  }

  // ---------------------------------------------------------------------------
  // An independent description of the replacement: a character is removed
  // exactly when it lies inside a match of `^#+\s*` that begins at a line start.
  // ---------------------------------------------------------------------------

  /** Position `k` lies inside the match of `#+\s*` of some line-start `#` at or before it. */
  ghost predicate InMatch(s: string, k: nat) {
    exists i :: 0 <= i <= k && HeaderAt(s, i) && k < HeaderEnd(s, i)
  }

  /** For each position of `s`, whether it lies inside a match. */
  ghost function MatchMask(s: string): (m: seq<bool>)
    ensures |m| == |s|
    ensures forall k :: 0 <= k < |s| ==> (m[k] <==> InMatch(s, k))
  {
    seq(|s|, k requires 0 <= k < |s| => InMatch(s, k))
  }

  /** The characters of `s` from `i` on whose `drop` entry is false, in order. */
  ghost function Filter(s: string, drop: seq<bool>, i: nat): string
    requires |drop| == |s| && i <= |s|
    decreases |s| - i
  {
    if i == |s| then []
    else (if drop[i] then [] else [s[i]]) + Filter(s, drop, i + 1)
  }

  /** The characters of `s` from `i` on that lie inside no match, in order. */
  ghost function Kept(s: string, i: nat): string
    requires i <= |s|
  {
    Filter(s, MatchMask(s), i)
  }

  /** No match begins strictly inside another: its `#` run follows a `#`, the rest is whitespace. */
  lemma NoHeaderInsideMatch(s: string, i: nat, p: nat)
    requires HeaderAt(s, i) && i < p < HeaderEnd(s, i)
    ensures !HeaderAt(s, p)
  {
    var h := SkipHashes(s, i);
    if p < h {
      assert s[p - 1] == '#';
    } else {
      assert IsWhitespace(s[p]);
    }
  }

  /** Dropped positions contribute nothing to `Filter`. */
  lemma {:induction false} FilterSkip(s: string, drop: seq<bool>, i: nat, j: nat)
    requires |drop| == |s| && i <= j <= |s|
    requires forall k :: i <= k < j ==> drop[k]
    ensures Filter(s, drop, i) == Filter(s, drop, j)
    decreases j - i
  {
    if i < j {
      FilterSkip(s, drop, i + 1, j);
    }
  }

  /** Every match that begins before `i` ends at or before `i`. */
  ghost predicate MatchesEndBy(s: string, i: nat) {
    forall i' :: 0 <= i' < i && HeaderAt(s, i') ==> HeaderEnd(s, i') <= i
  }

  lemma {:induction false} StripFromIsKept(s: string, i: nat)
    requires i <= |s| && MatchesEndBy(s, i)
    ensures StripFrom(s, i) == Kept(s, i)
    decreases |s| - i
  {
    if i < |s| {
      if HeaderAt(s, i) {
        var j := HeaderEnd(s, i);
        var m := MatchMask(s);
        forall k | i <= k < j ensures m[k] {
          assert HeaderAt(s, i) && k < HeaderEnd(s, i);
        }
        FilterSkip(s, m, i, j);
        forall i' | 0 <= i' < j && HeaderAt(s, i') ensures HeaderEnd(s, i') <= j {
          if i < i' {
            NoHeaderInsideMatch(s, i, i');
          }
        }
        StripFromIsKept(s, j);
      } else {
        assert !InMatch(s, i) && !MatchMask(s)[i];
        StripFromIsKept(s, i + 1);
      }
    }
  }

  /**
   * The global multiline replacement of `^#+\s*` by the empty string removes
   * exactly the characters inside line-start matches, and keeps every other
   * character, in order.
   */
  lemma StripHeadersIsKept(content: string)
    ensures StripHeaders(content) == Kept(content, 0)
  {
    StripFromIsKept(content, 0);
  }

  /** The characters of `s` that are neither `#` nor whitespace, in order. */
  function Significant(s: string): string {
    if s == [] then []
    else (if s[0] != '#' && !IsWhitespace(s[0]) then [s[0]] else []) + Significant(s[1..])
  }

  lemma {:induction false} SkippedAreInsignificant(s: string, i: nat, j: nat)
    requires i <= j <= |s|
    requires forall k :: i <= k < j ==> s[k] == '#' || IsWhitespace(s[k])
    ensures Significant(s[i..]) == Significant(s[j..])
    decreases j - i
  {
    if i < j {
      assert s[i..][1..] == s[i + 1..];
      SkippedAreInsignificant(s, i + 1, j);
    }
  }

  lemma {:induction false} StripFromKeepsSignificant(s: string, i: nat)
    requires i <= |s|
    ensures Significant(StripFrom(s, i)) == Significant(s[i..])
    decreases |s| - i
  {
    if i < |s| {
      if HeaderAt(s, i) {
        var j := HeaderEnd(s, i);
        StripFromKeepsSignificant(s, j);
        SkippedAreInsignificant(s, i, j);
      } else {
        StripFromKeepsSignificant(s, i + 1);
        assert ([s[i]] + StripFrom(s, i + 1))[1..] == StripFrom(s, i + 1);
        assert s[i..][1..] == s[i + 1..];
      }
    }
  }

  /** Stripping headers removes only `#` markers and whitespace: every other character survives, in order. */
  lemma StripHeadersKeepsSignificant(content: string)
    ensures Significant(StripHeaders(content)) == Significant(content)
  {
    StripFromKeepsSignificant(content, 0);
    assert content[0..] == content;
  }

  lemma {:induction false} StripFromWithoutHeaders(s: string, i: nat)
    requires i <= |s|
    requires forall k :: i <= k < |s| ==> !HeaderAt(s, k)
    ensures StripFrom(s, i) == s[i..]
    decreases |s| - i
  {
    if i < |s| {
      StripFromWithoutHeaders(s, i + 1);
      assert s[i..] == [s[i]] + s[i + 1..];
    }
  }

  /** Content in which no line begins with `#` is left as it is. */
  lemma StripHeadersWithoutHeaders(content: string)
    requires NoHeaderLine(content)
    ensures StripHeaders(content) == content
  {
    StripFromWithoutHeaders(content, 0);
    assert content[0..] == content;
  }

  /**
   * `getContentPreview(content, maxLength)` of the learn view: empty content
   * gets a placeholder; otherwise header markers are stripped, the result
   * trimmed and cut after `maxLength` characters.
   */
  function ContentPreview(content: string, maxLength: nat): (r: string)
    ensures content == [] ==> r == NO_CONTENT_PREVIEW
    ensures content != [] ==>
              var shown := Trim(StripHeaders(content));
              && (|shown| <= maxLength ==> r == shown)
              && (|shown| > maxLength ==> r == shown[..maxLength] + ELLIPSIS)
    ensures r == [] || !IsWhitespace(r[0])
  {
    if content == [] then NO_CONTENT_PREVIEW
    else Truncate(Trim(StripHeaders(content)), maxLength)
  }

  /** Content in which no line begins with `#` is previewed as its trimmed, possibly cut, self. */
  lemma ContentPreviewWithoutHeaders(content: string, maxLength: nat)
    requires content != [] && NoHeaderLine(content)
    ensures ContentPreview(content, maxLength) == Truncate(Trim(content), maxLength)
  {
    StripHeadersWithoutHeaders(content);
  }

  lemma NoHashNoHeader(s: string, i: nat)
    requires i <= |s| && '#' !in s[i..]
    ensures forall k :: i <= k < |s| ==> !HeaderAt(s, k)
  {
    forall k | i <= k < |s| ensures !HeaderAt(s, k) {
      assert s[k] == s[i..][k - i];
    }
  }

  lemma {:induction false} SkipHashesAt(s: string, i: nat, j: nat)
    requires i <= j <= |s|
    requires forall k :: i <= k < j ==> s[k] == '#'
    requires j == |s| || s[j] != '#'
    ensures SkipHashes(s, i) == j
    decreases j - i
  {
    if i < j {
      SkipHashesAt(s, i + 1, j);
    }
  }

  /**
   * A match at `i` whose `#` run ends at `h` and whose whitespace ends at `j`:
   * scanning resumes at `j`.
   */
  lemma HeaderMatch(s: string, i: nat, h: nat, j: nat)
    requires HeaderAt(s, i) && i < h <= j <= |s|
    requires forall k :: i <= k < h ==> s[k] == '#'
    requires h == |s| || s[h] != '#'
    requires forall k :: h <= k < j ==> IsWhitespace(s[k])
    requires j == |s| || !IsWhitespace(s[j])
    ensures HeaderEnd(s, i) == j
    ensures StripFrom(s, i) == StripFrom(s, j)
  {
    SkipHashesAt(s, i, h);
    SkipWhitespaceAt(s, h, j);
  }

  /**
   * Content that opens with one header line, `#`s up to `h` and whitespace up
   * to `j`, and has no `#` after that, loses exactly that marker.
   */
  lemma LeadingHeaderStripped(s: string, h: nat, j: nat)
    requires 0 < h <= j <= |s|
    requires forall k :: 0 <= k < h ==> s[k] == '#'
    requires forall k :: h <= k < j ==> IsWhitespace(s[k])
    requires j == |s| || !IsWhitespace(s[j])
    requires '#' !in s[j..]
    ensures StripHeaders(s) == s[j..]
  {
    assert !IsWhitespace('#');
    if h < |s| && h == j {
      assert s[h] == s[j..][0];
    }
    HeaderMatch(s, 0, h, j);
    NoHashNoHeader(s, j);
    StripFromWithoutHeaders(s, j);
  }

  /**
   * The worked example: a lesson body `# Intro` / `Hello` loses its heading
   * marker and previews as `Intro` / `Hello`.
   */
  lemma IntroductionPreview(s: string)
    requires |s| >= 2 && s[..2] == "# " && s[2..] == "Intro\nHello"
    ensures StripHeaders(s) == "Intro\nHello"
    ensures ContentPreview(s, LESSON_PREVIEW_LENGTH) == "Intro\nHello"
  {
    assert s[0] == s[..2][0] && s[1] == s[..2][1];
    assert s[2] == s[2..][0];
    LeadingHeaderStripped(s, 1, 2);
    TrimTrimmed("Intro\nHello");
  }

  /**
   * Header lines separated by a blank line, `#` / `` / `## Title` / `Body`:
   * `\s*` after the first marker runs across both line breaks, and the next
   * `#` still follows a line break, so both markers go.
   */
  lemma StackedHeadingsStripped(s: string)
    requires |s| >= 6 && s[..6] == "#\n\n## " && s[6..] == "Title\nBody"
    ensures StripHeaders(s) == "Title\nBody"
  {
    var head, body := s[..6], s[6..];
    assert s[0] == head[0] && s[1] == head[1] && s[2] == head[2];
    assert s[3] == head[3] && s[4] == head[4] && s[5] == head[5];
    assert s[6] == body[0];
    StackedMarkers(s);
  }

  lemma StackedMarkers(s: string)
    requires |s| > 6 && s[0] == '#' && s[1] == '\n' && s[2] == '\n'
    requires s[3] == '#' && s[4] == '#' && s[5] == ' '
    requires !IsWhitespace(s[6]) && '#' !in s[6..]
    ensures StripHeaders(s) == s[6..]
  {
    HeaderMatch(s, 0, 1, 3);
    HeaderMatch(s, 3, 5, 6);
    NoHashNoHeader(s, 6);
    StripFromWithoutHeaders(s, 6);
  }

  /** A `#` that does not begin a line is kept: `# a #b` becomes `a #b`. */
  lemma InlineMarkerKept(s: string)
    requires |s| >= 2 && s[..2] == "# " && s[2..] == "a #b"
    ensures StripHeaders(s) == "a #b"
  {
    assert s[0] == s[..2][0] && s[1] == s[..2][1];
    assert forall k :: 2 <= k < |s| ==> s[k] == s[2..][k - 2];
    HeaderMatch(s, 0, 1, 2);
    forall k | 2 <= k < |s| ensures !HeaderAt(s, k) {
      assert !IsLineTerminator(s[k - 1]);
    }
    StripFromWithoutHeaders(s, 2);
  }

  // ---------------------------------------------------------------------------
  // getContentStats
  // ---------------------------------------------------------------------------

  datatype Stats = Stats(words: nat, chars: nat)

  /**
   * `getContentStats(content)` of the studio view:
   * `words` is `content.split(/\s+/).filter(Boolean).length`, `chars` is the length.
   */
  function ContentStats(content: string): (r: Stats)
    ensures r.chars == |content|
    ensures r.words == RunCount(content)
    ensures r.words == 0 <==> forall i :: 0 <= i < |content| ==> IsWhitespace(content[i])
  {
    WordCountIsRunCount(content);
    RunCountZero(content);
    Stats(|NonEmpty(SplitOnWhitespace(content))|, |content|)
  }
}
