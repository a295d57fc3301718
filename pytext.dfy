/** The Python `str` methods the backends rely on, for the characters of the
    Basic Multilingual Plane: `isspace`/`strip`, `splitlines` and `lower`. */
module PyText {
  import opened Strings

  /** The characters for which Python's `str.isspace()` holds; `str.strip()`
      with no argument removes exactly these from both ends. */
  const WHITESPACE: set<char> := {
    '\t', '\n', '\U{b}', '\U{c}', '\r', '\U{1c}', '\U{1d}', '\U{1e}', '\U{1f}', ' ',
    '\U{85}', '\U{a0}', '\U{1680}',
    '\U{2000}', '\U{2001}', '\U{2002}', '\U{2003}', '\U{2004}', '\U{2005}',
    '\U{2006}', '\U{2007}', '\U{2008}', '\U{2009}', '\U{200a}',
    '\U{2028}', '\U{2029}', '\U{202f}', '\U{205f}', '\U{3000}'
  }

  /** The line boundaries of `str.splitlines()`; `"\r\n"` counts as one. */
  const LINE_BREAKS: set<char> := {
    '\n', '\U{b}', '\U{c}', '\r', '\U{1c}', '\U{1d}', '\U{1e}', '\U{85}', '\U{2028}', '\U{2029}'
  }

  /** Python's `s.strip()`. */
  function Strip(s: string): (r: string)
    ensures r == [] || (r[0] !in WHITESPACE && r[|r| - 1] !in WHITESPACE)
    ensures EdgeCut(s, r, WHITESPACE)
    ensures Contains(s, r)
    ensures r == [] <==> forall k :: 0 <= k < |s| ==> s[k] in WHITESPACE
  {
    TrimBy(s, WHITESPACE)
  }

  /** Stripping twice is stripping once. */
  lemma StripIdempotent(s: string)
    ensures Strip(Strip(s)) == Strip(s)
  {
    TrimByIdempotent(s, WHITESPACE);
  }

  /** The first line boundary at or after `i`, or `|s|` when there is none. */
  function NextBreak(s: string, i: nat): (r: nat)
    requires i <= |s|
    ensures i <= r <= |s|
    ensures forall k :: i <= k < r ==> s[k] !in LINE_BREAKS
    ensures r < |s| ==> s[r] in LINE_BREAKS
    decreases |s| - i
  {
    if i == |s| || s[i] in LINE_BREAKS then i else NextBreak(s, i + 1)
  }

  /** Python's `s.splitlines()`: the lines without their terminators; a final
      terminator does not start an extra empty line. */
  function SplitLines(s: string): (lines: seq<string>)
    ensures lines == [] <==> s == []
    ensures forall l <- lines :: Avoids(l, LINE_BREAKS) && Contains(s, l)
    decreases |s|
  {
    if s == [] then []
    else
      var e := NextBreak(s, 0);
      if e == |s| then
        assert OccursAt(s, s, 0);
        [s]
      else
        var next := if s[e] == '\r' && e + 1 < |s| && s[e + 1] == '\n' then e + 2 else e + 1;
        var rest := s[next..];
        assert OccursAt(s, s[..e], 0);
        assert OccursAt(s, rest, next);
        ContainsEach(s, rest, SplitLines(rest));
        [s[..e]] + SplitLines(rest)
  }

  /** `"\r\n"` ends one line, not two. */
  lemma CrLfIsOneBreak(line: string, rest: string)
    requires Avoids(line, LINE_BREAKS)
    ensures SplitLines(line + "\r\n" + rest) == [line] + SplitLines(rest)
  {
    var s := line + "\r\n" + rest;
    var e := |line|;
    assert s[e] == '\r' && s[e + 1] == '\n';
    assert forall k :: 0 <= k < e ==> s[k] == line[k];
    NextBreakAt(s, 0, e);
    assert s[..e] == line;
    assert s[e + 2..] == rest;
  }

  /** A terminator at the very end does not start an extra empty line. */
  lemma FinalBreakAddsNoLine(line: string, c: char)
    requires Avoids(line, LINE_BREAKS) && c in LINE_BREAKS
    ensures SplitLines(line + [c]) == [line]
  {
    var s := line + [c];
    assert forall k :: 0 <= k < |line| ==> s[k] == line[k];
    NextBreakAt(s, 0, |line|);
    assert s[..|line|] == line;
    assert s[|line| + 1..] == [];
  }

  /** The first line boundary from `i` is at `e` when `s[e]` is one and
      nothing between is. */
  lemma NextBreakAt(s: string, i: nat, e: nat)
    requires i <= e < |s| && s[e] in LINE_BREAKS
    requires forall k :: i <= k < e ==> s[k] !in LINE_BREAKS
    ensures NextBreak(s, i) == e
  {
  }

  /** For a text whose only line boundary is `\n` and which does not end
      with one, joining the lines with `\n` gives the text back. */
  lemma {:induction false} SplitLinesJoin(s: string)
    requires forall k :: 0 <= k < |s| ==> s[k] in LINE_BREAKS ==> s[k] == '\n'
    requires s == [] || s[|s| - 1] != '\n'
    ensures Join(SplitLines(s), "\n") == s
    decreases |s|
  {
    if s != [] {
      var e := NextBreak(s, 0);
      if e < |s| {
        assert s[e] == '\n';
        var rest := s[e + 1..];
        assert rest != [] && rest[|rest| - 1] == s[|s| - 1];
        assert forall k :: 0 <= k < |rest| ==> rest[k] == s[e + 1 + k];
        SplitLinesJoin(rest);
        var tail := SplitLines(rest);
        assert s[e] != '\r';
        assert SplitLines(s) == [s[..e]] + tail;
        assert |tail| >= 1;
        assert ([s[..e]] + tail)[1..] == tail;
        assert s == s[..e] + "\n" + rest;
      }
    }
  }

  /** Python's `c.lower()` on the ASCII letters. */
  function LowerChar(c: char): char {
    if 'A' <= c <= 'Z' then (c as int - 'A' as int + 'a' as int) as char else c
  }

  /** Python's `s.lower()` on the ASCII letters. */
  function Lower(s: string): (r: string)
    ensures |r| == |s|
    ensures forall k :: 0 <= k < |s| ==> r[k] == LowerChar(s[k])
  {
    seq(|s|, k requires 0 <= k < |s| => LowerChar(s[k]))
  }
}
