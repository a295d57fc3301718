/** Language-neutral operations on strings (sequences of characters) that the
    Python backends and the web front end are built from: substring search,
    splitting on a separator, joining, replacing, trimming with a given set of
    blank characters, and truncation. */
module Strings {
  import opened Wrappers

  /** `sub` occurs in `s` starting at index `i`. */
  predicate OccursAt(s: string, sub: string, i: nat) {
    i + |sub| <= |s| && s[i..i + |sub|] == sub
  }

  /** Python's `sub in s`: `sub` is a contiguous piece of `s`. */
  predicate Contains(s: string, sub: string) {
    exists i: nat | i <= |s| :: OccursAt(s, sub, i)
  }

  /** Python's `s.startswith(prefix)`. */
  predicate StartsWith(s: string, prefix: string) {
    prefix <= s
  }

  /** The first index at or after `i` where `sub` occurs in `s`. */
  function FindFrom(s: string, sub: string, i: nat): (r: Option<nat>)
    ensures r.Some? ==> i <= r.value && OccursAt(s, sub, r.value)
    ensures r.Some? ==> forall j: nat :: i <= j < r.value ==> !OccursAt(s, sub, j)
    ensures r.None? ==> forall j: nat :: i <= j ==> !OccursAt(s, sub, j)
    decreases |s| - i
  {
    if i + |sub| > |s| then None
    else if OccursAt(s, sub, i) then Some(i)
    else FindFrom(s, sub, i + 1)
  }

  /** Python's `s.find(sub)`, with None for -1. */
  function Find(s: string, sub: string): (r: Option<nat>)
    ensures r.Some? ==> OccursAt(s, sub, r.value)
    ensures r.Some? ==> forall j: nat :: j < r.value ==> !OccursAt(s, sub, j)
    ensures r.None? <==> !Contains(s, sub)
  {
    FindFrom(s, sub, 0)
  }

  /** Python's `s.split(sep)` for a non-empty separator: the occurrences are
      taken left to right without overlap, and n occurrences give n + 1 pieces. */
  function Split(s: string, sep: string): (parts: seq<string>)
    requires |sep| > 0
    ensures |parts| >= 1
    ensures Find(s, sep).None? ==> parts == [s]
    ensures Find(s, sep).Some? ==> parts[0] == s[..Find(s, sep).value]
    decreases |s|
  {
    match Find(s, sep)
    case None => [s]
    case Some(i) => [s[..i]] + Split(s[i + |sep|..], sep)
  }

  /** Python's `sep.join(parts)`: every part occurs in the result. */
  function Join(parts: seq<string>, sep: string): (r: string)
    ensures parts == [] ==> r == ""
    ensures forall p <- parts :: Contains(r, p)
  {
    if |parts| == 0 then ""
    else if |parts| == 1 then
      assert OccursAt(parts[0], parts[0], 0);
      parts[0]
    else
      var rest := Join(parts[1..], sep);
      var r := parts[0] + sep + rest;
      assert OccursAt(r, parts[0], 0);
      assert OccursAt(r, rest, |parts[0]| + |sep|);
      ContainsEach(r, rest, parts[1..]);
      assert forall p <- parts :: p == parts[0] || p in parts[1..];
      r
  }

  /** Python's `s.replace(pat, repl)` for a non-empty pattern: a string
      without the pattern is returned as it is, and replacing by something no
      longer than the pattern shortens the text by at least the difference. */
  function Replace(s: string, pat: string, repl: string): (r: string)
    requires |pat| > 0
    ensures !Contains(s, pat) ==> r == s
    ensures |repl| <= |pat| ==> |r| <= |s|
    ensures |repl| <= |pat| && Contains(s, pat) ==> |r| <= |s| - (|pat| - |repl|)
    decreases |s|
  {
    match Find(s, pat)
    case None => s
    case Some(i) => s[..i] + repl + Replace(s[i + |pat|..], pat, repl)
  }

  /** Every character of a replacement's result comes from the text or from
      the replacement. */
  lemma {:induction false} ReplaceChars(s: string, pat: string, repl: string)
    requires |pat| > 0
    ensures forall c :: c in Replace(s, pat, repl) ==> c in s || c in repl
    decreases |s|
  {
    match Find(s, pat)
    case None =>
    case Some(i) =>
      var head, rest := s[..i], s[i + |pat|..];
      var tail := Replace(rest, pat, repl);
      ReplaceChars(rest, pat, repl);
      assert Replace(s, pat, repl) == head + repl + tail;
      forall c | c in head + repl + tail
        ensures c in s || c in repl
      {
        if c in head {
          var k :| 0 <= k < |head| && head[k] == c;
          assert s[k] == c;
        } else if c in tail && c in rest {
          var k :| 0 <= k < |rest| && rest[k] == c;
          assert s[i + |pat| + k] == c;
        }
      }
  }

  /** Python's slice `s[:n]`. */
  function Truncate(s: string, n: nat): (r: string)
    ensures |r| <= n && r <= s
    ensures |s| <= n ==> r == s
  {
    if |s| <= n then s else s[..n]
  }

  /** The first index at or after `i` whose character is not blank. */
  function SkipBlank(s: string, blank: set<char>, i: nat): (r: nat)
    requires i <= |s|
    ensures i <= r <= |s|
    ensures forall k :: i <= k < r ==> s[k] in blank
    ensures r < |s| ==> s[r] !in blank
    decreases |s| - i
  {
    if i == |s| || s[i] !in blank then i else SkipBlank(s, blank, i + 1)
  }

  /** The end of `s[lo..j]` once the blank characters at its end are dropped. */
  function SkipBlankBack(s: string, blank: set<char>, lo: nat, j: nat): (r: nat)
    requires lo <= j <= |s|
    ensures lo <= r <= j
    ensures forall k :: r <= k < j ==> s[k] in blank
    ensures lo < r ==> s[r - 1] !in blank
    decreases j
  {
    if j == lo || s[j - 1] !in blank then j else SkipBlankBack(s, blank, lo, j - 1)
  }

  /** `s` neither begins nor ends with a blank character. */
  predicate Trimmed(s: string, blank: set<char>) {
    s == [] || (s[0] !in blank && s[|s| - 1] !in blank)
  }

  /** `r` is `s` with blank characters removed at its two ends only. */
  predicate EdgeCut(s: string, r: string, blank: set<char>) {
    exists i: nat, j: nat ::
      && i <= j <= |s| && r == s[i..j]
      && (forall k :: 0 <= k < i ==> s[k] in blank)
      && (forall k :: j <= k < |s| ==> s[k] in blank)
  }

  /** Removes the blank characters at both ends of `s`, and nothing else. */
  function TrimBy(s: string, blank: set<char>): (r: string)
    ensures Trimmed(r, blank)
    ensures EdgeCut(s, r, blank)
    ensures Contains(s, r)
    ensures r == [] <==> forall k :: 0 <= k < |s| ==> s[k] in blank
  {
    var i := SkipBlank(s, blank, 0);
    var j := SkipBlankBack(s, blank, i, |s|);
    assert OccursAt(s, s[i..j], i);
    s[i..j]
  }

  /** Trimming a string that is already trimmed changes nothing. */
  lemma TrimByTrimmed(s: string, blank: set<char>)
    requires Trimmed(s, blank)
    ensures TrimBy(s, blank) == s
  {
    if s != [] {
      assert SkipBlank(s, blank, 0) == 0;
      assert SkipBlankBack(s, blank, 0, |s|) == |s|;
    }
  }

  /** Trimming is idempotent. */
  lemma TrimByIdempotent(s: string, blank: set<char>)
    ensures TrimBy(TrimBy(s, blank), blank) == TrimBy(s, blank)
  {
    TrimByTrimmed(TrimBy(s, blank), blank);
  }

  /** A piece of a piece of `a` is a piece of `a`. */
  lemma ContainsTransitive(a: string, b: string, c: string)
    requires Contains(a, b) && Contains(b, c)
    ensures Contains(a, c)
  {
    var i: nat :| i <= |a| && OccursAt(a, b, i);
    var j: nat :| j <= |b| && OccursAt(b, c, j);
    assert forall k :: 0 <= k < |b| ==> b[k] == a[i + k];
    assert a[i + j..i + j + |c|] == c;
    assert OccursAt(a, c, i + j);
  }

  /** Every string of `ps` that occurs in `b` occurs in `a`, which holds `b`. */
  lemma ContainsEach(a: string, b: string, ps: seq<string>)
    requires Contains(a, b) && forall p <- ps :: Contains(b, p)
    ensures forall p <- ps :: Contains(a, p)
  {
    forall p <- ps
      ensures Contains(a, p)
    {
      ContainsTransitive(a, b, p);
    }
  }

  /** No character of `s` lies in `bad`. */
  predicate Avoids(s: string, bad: set<char>) {
    forall k :: 0 <= k < |s| ==> s[k] !in bad
  }

  /** No two adjacent characters of `s` are both `c`. */
  predicate NoDoubled(s: string, c: char) {
    forall k :: 0 <= k < |s| - 1 ==> !(s[k] == c && s[k + 1] == c)
  }

  /** A piece of a string keeps the character-level properties of the string. */
  lemma ContainsKeeps(s: string, r: string, bad: set<char>, c: char)
    requires Contains(s, r)
    ensures Avoids(s, bad) ==> Avoids(r, bad)
    ensures NoDoubled(s, c) ==> NoDoubled(r, c)
  {
    var i: nat :| i <= |s| && OccursAt(s, r, i);
    assert forall k :: 0 <= k < |r| ==> r[k] == s[i + k];
  }

  /** A string in which `[c, c]` does not occur has no doubled `c`. */
  lemma NotContainsPair(s: string, c: char)
    requires !Contains(s, [c, c])
    ensures NoDoubled(s, c)
  {
    forall k | 0 <= k < |s| - 1
      ensures !(s[k] == c && s[k + 1] == c)
    {
      assert !OccursAt(s, [c, c], k);
      assert s[k..k + 2] == [s[k], s[k + 1]];
    }
  }

  /** Splitting and joining with the same separator are inverse: the pieces
      put back together with the separator give the original string. */
  lemma {:induction false} JoinSplit(s: string, sep: string)
    requires |sep| > 0
    ensures Join(Split(s, sep), sep) == s
    decreases |s|
  {
    match Find(s, sep)
    case None =>
    case Some(i) =>
      var rest := s[i + |sep|..];
      var tail := Split(rest, sep);
      JoinSplit(rest, sep);
      var parts := [s[..i]] + tail;
      assert Split(s, sep) == parts;
      assert parts[1..] == tail;
      assert Join(parts, sep) == s[..i] + sep + Join(tail, sep);
      assert s[i..i + |sep|] == sep;
      assert s == s[..i] + s[i..i + |sep|] + rest;
  }

  /** The text before the first occurrence of `sep` does not contain `sep`. */
  lemma BeforeFirstAvoids(s: string, sep: string, i: nat)
    requires |sep| > 0 && i <= |s|
    requires forall j: nat :: j < i ==> !OccursAt(s, sep, j)
    ensures !Contains(s[..i], sep)
  {
    var head := s[..i];
    if Contains(head, sep) {
      var j: nat :| j <= |head| && OccursAt(head, sep, j);
      assert head[j..j + |sep|] == s[j..j + |sep|];
      assert OccursAt(s, sep, j);
      assert false;
    }
  }

  /** No piece of a split contains the separator, and every piece occurs in
      the string that was split. */
  lemma {:induction false} SplitPieces(s: string, sep: string)
    requires |sep| > 0
    ensures forall p <- Split(s, sep) :: !Contains(p, sep) && Contains(s, p)
    decreases |s|
  {
    match Find(s, sep)
    case None =>
      assert OccursAt(s, s, 0);
      assert Split(s, sep) == [s];
    case Some(i) =>
      var rest := s[i + |sep|..];
      var tail := Split(rest, sep);
      SplitPieces(rest, sep);
      var head := s[..i];
      assert Split(s, sep) == [head] + tail;
      assert OccursAt(s, head, 0);
      assert OccursAt(s, rest, i + |sep|);
      BeforeFirstAvoids(s, sep, i);
      forall p <- tail
        ensures Contains(s, p)
      {
        ContainsTransitive(s, rest, p);
      }
  }

  /** For a non-empty pattern, replacing equals joining the pieces of the
      split with `repl`. */
  lemma {:induction false} ReplaceIsJoinOfSplit(s: string, pat: string, repl: string)
    requires |pat| > 0
    ensures Replace(s, pat, repl) == Join(Split(s, pat), repl)
    decreases |s|
  {
    match Find(s, pat)
    case None =>
    case Some(i) =>
      var rest := s[i + |pat|..];
      ReplaceIsJoinOfSplit(rest, pat, repl);
      var parts := Split(s, pat);
      assert parts[1..] == Split(rest, pat);
  }
}
