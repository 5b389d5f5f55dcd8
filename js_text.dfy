/**
 * The few JavaScript string primitives the mini-app relies on, written out
 * over `string` (a sequence of characters):
 *  - the `\s` character class, which `String.prototype.trim` also strips,
 *  - the line terminators that `^` recognises in a multiline regular expression,
 *  - `split` with a one-character separator, and `split(/\s+/)`,
 *  - `trim`.
 */
module JsText {

  /**
   * A character of JavaScript's `\s` class: WhiteSpace or LineTerminator.
   * Every line terminator is in it, and `#` is not.
   */
  function IsWhitespace(c: char): (b: bool)
    ensures IsLineTerminator(c) ==> b
    ensures b ==> c != '#'
  {
    || c == '\t' || c == '\n' || c == '\U{000B}' || c == '\U{000C}' || c == '\r'
    || c == ' ' || c == '\U{00A0}' || c == '\U{1680}'
    || ('\U{2000}' <= c <= '\U{200A}')
    || c == '\U{2028}' || c == '\U{2029}' || c == '\U{202F}' || c == '\U{205F}'
    || c == '\U{3000}' || c == '\U{FEFF}'
  }

  /**
   * A character after which `^` matches in a multiline regular expression;
   * each one is also in `\s`, so `\s*` can run across line breaks.
   */
  predicate IsLineTerminator(c: char) {
    c == '\n' || c == '\r' || c == '\U{2028}' || c == '\U{2029}'
  }

  /** The number of occurrences of `c` in `s`. */
  function CountChar(s: string, c: char): nat {
    if s == [] then 0 else (if s[0] == c then 1 else 0) + CountChar(s[1..], c)
  }

  // ---------------------------------------------------------------------------
  // split with a one-character separator, and its inverse
  // ---------------------------------------------------------------------------

  /**
   * `s.split(sep)` for a one-character separator: the pieces between the
   * occurrences of `sep`. The empty string splits into one empty piece.
   */
  function SplitOn(s: string, sep: char): (pieces: seq<string>)
    ensures |pieces| == CountChar(s, sep) + 1
    ensures forall k :: 0 <= k < |pieces| ==> sep !in pieces[k]
  {
    if s == [] then [[]]
    else
      var rest := SplitOn(s[1..], sep);
      if s[0] == sep then [[]] + rest
      else [[s[0]] + rest[0]] + rest[1..]
  }

  /** `pieces.join(sep)`. */
  function Join(pieces: seq<string>, sep: char): string {
    if |pieces| == 0 then []
    else if |pieces| == 1 then pieces[0]
    else pieces[0] + [sep] + Join(pieces[1..], sep)
  }

  /** Joining the pieces of a split gives back the string. */
  lemma {:induction false} JoinSplitOn(s: string, sep: char)
    ensures Join(SplitOn(s, sep), sep) == s
  {
    if s != [] {
      var rest := SplitOn(s[1..], sep);
      JoinSplitOn(s[1..], sep);
      if s[0] == sep {
        assert ([[]] + rest)[1..] == rest;
      } else if |rest| > 1 {
        assert ([[s[0]] + rest[0]] + rest[1..])[1..] == rest[1..];
      }
    }
  }

  lemma {:induction false} SplitOnWithoutSeparator(a: string, sep: char)
    requires sep !in a
    ensures SplitOn(a, sep) == [a]
  {
    if a != [] {
      SplitOnWithoutSeparator(a[1..], sep);
      assert [a[0]] + a[1..] == a;
    }
  }

  lemma {:induction false} SplitOnAfterPiece(a: string, b: string, sep: char)
    requires sep !in a
    ensures SplitOn(a + [sep] + b, sep) == [a] + SplitOn(b, sep)
  {
    var s := a + [sep] + b;
    if a == [] {
      assert s[1..] == b;
    } else {
      assert s[1..] == a[1..] + [sep] + b;
      SplitOnAfterPiece(a[1..], b, sep);
      assert [a[0]] + a[1..] == a;
    }
  }

  /** Splitting a join of separator-free pieces gives back the pieces. */
  lemma {:induction false} SplitOnJoin(pieces: seq<string>, sep: char)
    requires |pieces| > 0
    requires forall k :: 0 <= k < |pieces| ==> sep !in pieces[k]
    ensures SplitOn(Join(pieces, sep), sep) == pieces
  {
    if |pieces| == 1 {
      SplitOnWithoutSeparator(pieces[0], sep);
    } else {
      SplitOnJoin(pieces[1..], sep);
      SplitOnAfterPiece(pieces[0], Join(pieces[1..], sep), sep);
      assert [pieces[0]] + pieces[1..] == pieces;
    }
  }

  // ---------------------------------------------------------------------------
  // trim
  // ---------------------------------------------------------------------------

  /** The end of the run of whitespace that starts at `i`. */
  function SkipWhitespace(s: string, i: nat): (j: nat)
    requires i <= |s|
    ensures i <= j <= |s|
    ensures forall k :: i <= k < j ==> IsWhitespace(s[k])
    ensures j == |s| || !IsWhitespace(s[j])
    decreases |s| - i
  {
    if i < |s| && IsWhitespace(s[i]) then SkipWhitespace(s, i + 1) else i
  }

  /** The start of the run of whitespace that ends at `j`. */
  function WhitespaceStart(s: string, j: nat): (i: nat)
    requires j <= |s|
    ensures i <= j
    ensures forall k :: i <= k < j ==> IsWhitespace(s[k])
    ensures i == 0 || !IsWhitespace(s[i - 1])
  {
    if j > 0 && IsWhitespace(s[j - 1]) then WhitespaceStart(s, j - 1) else j
  }

  /** A run of whitespace from `i` that stops at `j` is the one `SkipWhitespace` finds. */
  lemma SkipWhitespaceAt(s: string, i: nat, j: nat)
    requires i <= j <= |s|
    requires forall k :: i <= k < j ==> IsWhitespace(s[k])
    requires j == |s| || !IsWhitespace(s[j])
    ensures SkipWhitespace(s, i) == j
  {
    var m := SkipWhitespace(s, i);
  }

  /** `s.trimStart()`: a suffix of `s`, what precedes it is whitespace. */
  function TrimStart(s: string): (r: string)
    ensures |r| <= |s| && r == s[|s| - |r|..]
    ensures forall i :: 0 <= i < |s| - |r| ==> IsWhitespace(s[i])
    ensures r == [] || !IsWhitespace(r[0])
  {
    s[SkipWhitespace(s, 0)..]
  }

  /** `s.trimEnd()`: a prefix of `s`, what follows it is whitespace. */
  function TrimEnd(s: string): (r: string)
    ensures |r| <= |s| && r == s[..|r|]
    ensures forall i :: |r| <= i < |s| ==> IsWhitespace(s[i])
    ensures r == [] || !IsWhitespace(r[|r| - 1])
  {
    s[..WhitespaceStart(s, |s|)]
  }

  /** Dropping one leading whitespace character does not change `trimStart`. */
  lemma TrimStartStep(s: string)
    requires s != [] && IsWhitespace(s[0])
    ensures TrimStart(s) == TrimStart(s[1..])
  {
    var j := SkipWhitespace(s, 1);
    assert forall k :: 0 <= k < j - 1 ==> s[1..][k] == s[k + 1];
    SkipWhitespaceAt(s[1..], 0, j - 1);
    assert s[1..][j - 1..] == s[j..];
  }

  /** `s.trim()`. */
  function Trim(s: string): (r: string)
    ensures |r| <= |s|
    ensures r == [] || (!IsWhitespace(r[0]) && !IsWhitespace(r[|r| - 1]))
  {
    TrimEnd(TrimStart(s))
  }

  /**
   * `trim` keeps exactly a slice `s[start..end]` of `s`: everything before and
   * after the slice is whitespace, and the slice neither begins nor ends with it.
   */
  lemma TrimIsSlice(s: string) returns (start: nat, end: nat)
    ensures start <= end <= |s| && Trim(s) == s[start..end]
    ensures forall i :: 0 <= i < start ==> IsWhitespace(s[i])
    ensures forall i :: end <= i < |s| ==> IsWhitespace(s[i])
    ensures start < end ==> !IsWhitespace(s[start]) && !IsWhitespace(s[end - 1])
  {
    start := SkipWhitespace(s, 0);
    var t := s[start..];
    end := start + WhitespaceStart(t, |t|);
    assert Trim(s) == t[..end - start];
    SuffixOfSuffix(s, start, t, end - start);
  }

  /** What `t[..n]` says about the suffix `t` of `s`, said about `s`. */
  lemma SuffixOfSuffix(s: string, start: nat, t: string, n: nat)
    requires start <= |s| && t == s[start..] && n <= |t|
    requires forall i :: n <= i < |t| ==> IsWhitespace(t[i])
    requires n == 0 || !IsWhitespace(t[n - 1])
    ensures t[..n] == s[start..start + n]
    ensures forall i :: start + n <= i < |s| ==> IsWhitespace(s[i])
    ensures n == 0 || !IsWhitespace(s[start + n - 1])
  {
    forall i | start + n <= i < |s| ensures IsWhitespace(s[i]) {
      assert s[i] == t[i - start];
    }
    if n > 0 {
      assert s[start + n - 1] == t[n - 1];
    }
  }

  /** A string that neither begins nor ends with whitespace is its own trim. */
  lemma TrimTrimmed(s: string)
    requires s == [] || (!IsWhitespace(s[0]) && !IsWhitespace(s[|s| - 1]))
    ensures Trim(s) == s
  {
  }

  /** A string made only of whitespace trims to the empty string. */
  lemma {:induction false} TrimAllWhitespace(s: string)
    requires forall i :: 0 <= i < |s| ==> IsWhitespace(s[i])
    ensures TrimStart(s) == [] && Trim(s) == []
  {
    if s != [] {
      TrimAllWhitespace(s[1..]);
    }
  }

  // ---------------------------------------------------------------------------
  // split(/\s+/) and the count of words
  // ---------------------------------------------------------------------------

  /**
   * `s.split(/\s+/)`: the pieces between maximal runs of whitespace. Leading
   * or trailing whitespace gives an empty first or last piece; the empty
   * string gives one empty piece.
   */
  function SplitOnWhitespace(s: string): (pieces: seq<string>)
    ensures |pieces| >= 1
    ensures forall k :: 0 <= k < |pieces| ==> forall c :: c in pieces[k] ==> !IsWhitespace(c)
    ensures forall k :: 0 < k < |pieces| - 1 ==> pieces[k] != []
    ensures s != [] && !IsWhitespace(s[0]) ==> pieces[0] != []
  {
    SplitRuns(s, [])
  }

  /**
   * The rest of `split(/\s+/)` when `current` is the piece read so far: the
   * pieces hold no whitespace, and only the first and the last can be empty.
   */
  function SplitRuns(s: string, current: string): (pieces: seq<string>)
    ensures |pieces| >= 1
    ensures (forall c :: c in current ==> !IsWhitespace(c)) ==>
              forall k :: 0 <= k < |pieces| ==> forall c :: c in pieces[k] ==> !IsWhitespace(c)
    ensures forall k :: 0 < k < |pieces| - 1 ==> pieces[k] != []
    ensures current != [] || (s != [] && !IsWhitespace(s[0])) ==> pieces[0] != []
    decreases |s|
  {
    if s == [] then [current]
    else if IsWhitespace(s[0]) then [current] + SplitRuns(TrimStart(s[1..]), [])
    else SplitRuns(s[1..], current + [s[0]])
  }

  /**
   * `s` with every maximal run of whitespace replaced by one space: what
   * joining the pieces of `split(/\s+/)` with `' '` gives.
   */
  function Collapse(s: string): (r: string)
    ensures |r| <= |s|
    decreases |s|
  {
    if s == [] then []
    else if IsWhitespace(s[0]) then [' '] + Collapse(TrimStart(s[1..]))
    else [s[0]] + Collapse(s[1..])
  }

  /** A join with one more piece in front. */
  lemma JoinCons(piece: string, pieces: seq<string>, sep: char)
    requires |pieces| > 0
    ensures Join([piece] + pieces, sep) == piece + [sep] + Join(pieces, sep)
  {
    assert ([piece] + pieces)[1..] == pieces;
  }

  /** Joining the rest of the scan gives the partly read piece, then the collapsed rest of the text. */
  lemma {:induction false} JoinSplitRuns(s: string, current: string)
    ensures Join(SplitRuns(s, current), ' ') == current + Collapse(s)
    decreases |s|
  {
    if s == [] {
    } else if IsWhitespace(s[0]) {
      var rest := TrimStart(s[1..]);
      JoinSplitRuns(rest, []);
      JoinCons(current, SplitRuns(rest, []), ' ');
    } else {
      JoinSplitRuns(s[1..], current + [s[0]]);
      assert current + [s[0]] + Collapse(s[1..]) == current + ([s[0]] + Collapse(s[1..]));
    }
  }

  /**
   * The pieces of `split(/\s+/)`, joined with single spaces, are the text
   * with each whitespace run collapsed to one space; as no piece holds
   * whitespace, SplitOnJoin then recovers every piece from that text.
   */
  lemma JoinSplitOnWhitespace(s: string)
    ensures Join(SplitOnWhitespace(s), ' ') == Collapse(s)
    ensures SplitOn(Collapse(s), ' ') == SplitOnWhitespace(s)
  {
    JoinSplitRuns(s, []);
    var pieces := SplitOnWhitespace(s);
    forall k | 0 <= k < |pieces|
      ensures ' ' !in pieces[k]
    {
      assert IsWhitespace(' ');
    }
    SplitOnJoin(pieces, ' ');
  }

  /** `pieces.filter(Boolean)`: the non-empty pieces, in order and with their multiplicities. */
  function NonEmpty(pieces: seq<string>): (r: seq<string>)
    ensures |r| <= |pieces|
    ensures forall k :: 0 <= k < |r| ==> r[k] != [] && r[k] in pieces
    ensures forall p :: p in pieces && p != [] ==> p in r
  {
    if pieces == [] then []
    else (if pieces[0] != [] then [pieces[0]] else []) + NonEmpty(pieces[1..])
  }

  /** `filter` keeps the order: filtering a concatenation concatenates the filtered parts. */
  lemma {:induction false} NonEmptyAppend(a: seq<string>, b: seq<string>)
    ensures NonEmpty(a + b) == NonEmpty(a) + NonEmpty(b)
  {
    if a == [] {
      assert a + b == b;
    } else {
      var c := a + b;
      assert c[0] == a[0] && c[1..] == a[1..] + b;
      NonEmptyAppend(a[1..], b);
      var head := if a[0] != [] then [a[0]] else [];
      assert NonEmpty(c) == head + NonEmpty(c[1..]);
      assert NonEmpty(a) == head + NonEmpty(a[1..]);
    }
  }

  /** `filter` keeps every non-empty piece as often as it occurs, and no empty one. */
  lemma {:induction false} NonEmptyMultiset(pieces: seq<string>)
    ensures multiset(NonEmpty(pieces)) == multiset(pieces)[[] := 0]
  {
    if pieces != [] {
      NonEmptyMultiset(pieces[1..]);
      assert pieces == [pieces[0]] + pieces[1..];
      var head := if pieces[0] != [] then [pieces[0]] else [];
      assert multiset(NonEmpty(pieces)) == multiset(head) + multiset(NonEmpty(pieces[1..]));
      assert multiset(pieces) == multiset([pieces[0]]) + multiset(pieces[1..]);
    }
  }

  /**
   * The number of maximal runs of non-whitespace characters in `s`, counted
   * by their last characters (a non-whitespace character at the end of `s` or
   * before a whitespace character).
   */
  function RunCount(s: string): nat {
    if s == [] then 0
    else (if !IsWhitespace(s[0]) && (|s| == 1 || IsWhitespace(s[1])) then 1 else 0) + RunCount(s[1..])
  }

  lemma {:induction false} RunCountTrimStart(s: string)
    ensures RunCount(TrimStart(s)) == RunCount(s)
  {
    if s != [] && IsWhitespace(s[0]) {
      RunCountTrimStart(s[1..]);
      TrimStartStep(s);
    }
  }

  lemma {:induction false} SplitRunsCount(s: string, current: string)
    ensures |NonEmpty(SplitRuns(s, current))| ==
            RunCount(s) + (if current != [] && (s == [] || IsWhitespace(s[0])) then 1 else 0)
    decreases |s|
  {
    if s == [] {
    } else if IsWhitespace(s[0]) {
      var rest := TrimStart(s[1..]);
      SplitRunsCount(rest, []);
      RunCountTrimStart(s[1..]);
      assert ([current] + SplitRuns(rest, []))[1..] == SplitRuns(rest, []);
    } else {
      SplitRunsCount(s[1..], current + [s[0]]);
    }
  }

  /** `s.split(/\s+/).filter(Boolean).length` is the number of maximal non-whitespace runs. */
  lemma WordCountIsRunCount(s: string)
    ensures |NonEmpty(SplitOnWhitespace(s))| == RunCount(s)
  {
    SplitRunsCount(s, []);
  }

  /** A string has no non-whitespace run exactly when every character is whitespace. */
  lemma {:induction false} RunCountZero(s: string)
    ensures RunCount(s) == 0 <==> forall i :: 0 <= i < |s| ==> IsWhitespace(s[i])
  {
    if s != [] {
      RunCountZero(s[1..]);
      if RunCount(s) == 0 && !IsWhitespace(s[0]) {
        assert !IsWhitespace(s[1..][0]);
      }
      if forall i :: 0 <= i < |s| ==> IsWhitespace(s[i]) {
        assert forall i :: 0 <= i < |s[1..]| ==> IsWhitespace(s[1..][i]) by {
          forall i | 0 <= i < |s[1..]| ensures IsWhitespace(s[1..][i]) {
            assert s[1..][i] == s[i + 1];
          }
        }
      }
    }
  }
}
