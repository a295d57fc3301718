/** The line-oriented parser of the model's answer inside `summarize_with_ai`
    (identical in backend/app.py and backend/app_debug.py): the summary comes
    from the last line starting with `SUMMARY:`, the key actions from the last
    line starting with `KEY_ACTIONS:`, split on `|`. */
module ResponseParser {
  import opened Wrappers
  import opened Strings
  import opened PyText
  import opened TextCleanup

  const SUMMARY_MARK := "SUMMARY:"
  const ACTIONS_MARK := "KEY_ACTIONS:"

  /** The index of the last line that starts with `mark`, if any. */
  function LastMarked(lines: seq<string>, mark: string): (r: Option<nat>)
    ensures r.Some? ==> r.value < |lines| && StartsWith(lines[r.value], mark)
    ensures r.Some? ==> forall j :: r.value < j < |lines| ==> !StartsWith(lines[j], mark)
    ensures r.None? ==> forall j :: 0 <= j < |lines| ==> !StartsWith(lines[j], mark)
  {
    if lines == [] then None
    else if StartsWith(lines[|lines| - 1], mark) then Some(|lines| - 1)
    else LastMarked(lines[..|lines| - 1], mark)
  }

  /** `line.replace('SUMMARY:', '').strip()`: a stripped text at least a
      marker's length shorter than a marked line, built from its characters. */
  function SummaryOf(line: string): (r: string)
    ensures Strip(r) == r
    ensures forall c :: c in r ==> c in line
    ensures StartsWith(line, SUMMARY_MARK) ==> |r| <= |line| - |SUMMARY_MARK|
  {
    SummaryFacts(line);
    Strip(Replace(line, SUMMARY_MARK, ""))
  }

  lemma SummaryFacts(line: string)
    ensures Strip(Strip(Replace(line, SUMMARY_MARK, ""))) == Strip(Replace(line, SUMMARY_MARK, ""))
    ensures forall c :: c in Strip(Replace(line, SUMMARY_MARK, "")) ==> c in line
    ensures StartsWith(line, SUMMARY_MARK) ==> |Strip(Replace(line, SUMMARY_MARK, ""))| <= |line| - |SUMMARY_MARK|
  {
    var cut := Replace(line, SUMMARY_MARK, "");
    var r := Strip(cut);
    StripIdempotent(cut);
    SubstringChars(cut, r);
    ReplaceChars(line, SUMMARY_MARK, "");
    assert |r| <= |cut| by {
      var i: nat :| i <= |cut| && OccursAt(cut, r, i);
    }
    if StartsWith(line, SUMMARY_MARK) {
      assert OccursAt(line, SUMMARY_MARK, 0);
    }
  }

  /** The stripped, non-empty `|`-separated parts of a `KEY_ACTIONS:` line;
      a line without `|` yields at most one action. */
  function ActionsOf(line: string): (r: seq<string>)
    ensures !Contains(line, "|") ==> |r| <= 1
  {
    var body := Strip(Replace(line, ACTIONS_MARK, ""));
    SubstringChars(Replace(line, ACTIONS_MARK, ""), body);
    ReplaceChars(line, ACTIONS_MARK, "");
    CharsAvoid(line, body, '|');
    DropEmpty(StripAll(Split(body, "|")))
  }

  /** The characters of a piece are characters of the whole. */
  lemma SubstringChars(s: string, r: string)
    requires Contains(s, r)
    ensures forall c :: c in r ==> c in s
  {
    var i: nat :| i <= |s| && OccursAt(s, r, i);
    assert r == s[i..i + |r|];
    forall c | c in r
      ensures c in s
    {
      var k :| 0 <= k < |r| && r[k] == c;
      assert s[i + k] == c;
    }
  }

  /** A string built from the characters of a string without `c` does not
      contain `[c]`. */
  lemma CharsAvoid(s: string, r: string, c: char)
    requires forall x :: x in r ==> x in s
    ensures !Contains(s, [c]) ==> !Contains(r, [c])
  {
    if !Contains(s, [c]) && Contains(r, [c]) {
      var i: nat :| i <= |r| && OccursAt(r, [c], i);
      assert r[i] == c && c in r;
      var j :| 0 <= j < |s| && s[j] == c;
      assert s[j..j + 1] == [c];
      assert OccursAt(s, [c], j);
      assert false;
    }
  }

  /** The summary the parser settles on for these lines. */
  function Summary(lines: seq<string>): string {
    match LastMarked(lines, SUMMARY_MARK)
    case None => ""
    case Some(k) => SummaryOf(lines[k])
  }

  /** The key actions the parser settles on for these lines. */
  function KeyActions(lines: seq<string>): seq<string> {
    match LastMarked(lines, ACTIONS_MARK)
    case None => []
    case Some(k) => ActionsOf(lines[k])
  }

  /** No line starts with both markers. */
  lemma MarkersExclusive(line: string)
    ensures !(StartsWith(line, SUMMARY_MARK) && StartsWith(line, ACTIONS_MARK))
  {
    assert StartsWith(line, SUMMARY_MARK) ==> line[0] == SUMMARY_MARK[0] == 'S';
    assert StartsWith(line, ACTIONS_MARK) ==> line[0] == ACTIONS_MARK[0] == 'K';
  }

  /** Looking at one more line: it becomes the last marked one if it is marked. */
  lemma LastMarkedStep(lines: seq<string>, i: nat, mark: string)
    requires i < |lines|
    ensures LastMarked(lines[..i + 1], mark)
         == if StartsWith(lines[i], mark) then Some(i) else LastMarked(lines[..i], mark)
  {
    assert lines[..i + 1][..i] == lines[..i];
  }

  /** Looking at one more line: a summary line replaces the summary, a key
      actions line replaces the actions, and any other line changes neither. */
  lemma ParseStep(lines: seq<string>, i: nat)
    requires i < |lines|
    ensures StartsWith(lines[i], SUMMARY_MARK) ==>
      Summary(lines[..i + 1]) == SummaryOf(lines[i]) && KeyActions(lines[..i + 1]) == KeyActions(lines[..i])
    ensures !StartsWith(lines[i], SUMMARY_MARK) && StartsWith(lines[i], ACTIONS_MARK) ==>
      Summary(lines[..i + 1]) == Summary(lines[..i]) && KeyActions(lines[..i + 1]) == ActionsOf(lines[i])
    ensures !StartsWith(lines[i], SUMMARY_MARK) && !StartsWith(lines[i], ACTIONS_MARK) ==>
      Summary(lines[..i + 1]) == Summary(lines[..i]) && KeyActions(lines[..i + 1]) == KeyActions(lines[..i])
  {
    LastMarkedStep(lines, i, SUMMARY_MARK);
    LastMarkedStep(lines, i, ACTIONS_MARK);
    MarkersExclusive(lines[i]);
    assert lines[..i + 1][i] == lines[i];
  }

  /** The loop of `summarize_with_ai` over `result_text.split('\n')`. */
  method ParseResponse(text: string) returns (summary: string, keyActions: seq<string>)
    ensures summary == Summary(Split(text, "\n"))
    ensures keyActions == KeyActions(Split(text, "\n"))
  {
    summary, keyActions := ParseLines(Split(text, "\n"));
  }

  /** The loop body over the lines: each marked line overwrites the summary
      or the actions, so the last one wins. */
  method ParseLines(lines: seq<string>) returns (summary: string, keyActions: seq<string>)
    ensures summary == Summary(lines)
    ensures keyActions == KeyActions(lines)
  {
    summary := "";
    keyActions := [];
    for i := 0 to |lines|
      invariant summary == Summary(lines[..i])
      invariant keyActions == KeyActions(lines[..i])
    {
      ParseStep(lines, i);
      var line := lines[i];
      if StartsWith(line, SUMMARY_MARK) {
        summary := SummaryOf(line);
      } else if StartsWith(line, ACTIONS_MARK) {
        keyActions := ActionsOf(line);
      }
    }
    assert lines[..|lines|] == lines;
  }

  /** Every key action of a `KEY_ACTIONS:` line is non-empty, stripped and
      free of `|`. */
  lemma ActionsOfClean(line: string)
    ensures forall a <- ActionsOf(line) :: a != [] && Strip(a) == a && !Contains(a, "|")
  {
    var parts := Split(Strip(Replace(line, ACTIONS_MARK, "")), "|");
    SplitPieces(Strip(Replace(line, ACTIONS_MARK, "")), "|");
    var stripped := StripAll(parts);
    forall k | 0 <= k < |parts|
      ensures Strip(stripped[k]) == stripped[k] && !Contains(stripped[k], "|")
    {
      StripIdempotent(parts[k]);
      if Contains(stripped[k], "|") {
        ContainsTransitive(parts[k], stripped[k], "|");
      }
    }
  }

  /** Whatever the answer, every parsed key action is non-empty, stripped and
      free of `|`, and the summary is stripped. */
  lemma ParsedClean(lines: seq<string>)
    ensures forall a <- KeyActions(lines) :: a != [] && Strip(a) == a && !Contains(a, "|")
    ensures Strip(Summary(lines)) == Summary(lines)
  {
    var actionsLine := LastMarked(lines, ACTIONS_MARK);
    if actionsLine.Some? {
      ActionsOfClean(lines[actionsLine.value]);
    }
    var summaryLine := LastMarked(lines, SUMMARY_MARK);
    if summaryLine.Some? {
      StripIdempotent(Replace(lines[summaryLine.value], SUMMARY_MARK, ""));
    }
  }
}
