/** The state logic of the React front end: the form submission (its
    validation, the request it makes and how the reply fills the state),
    the reset, the saved-links list, and the normalisation that turns each
    key action of a reply into a caption and an optional link. */
module WebApp {
  import opened Wrappers
  import opened Strings
  import PyText

  /** The characters JavaScript's `String.prototype.trim` removes: the
      WhiteSpace and LineTerminator characters of ECMAScript. */
  const JS_WHITESPACE: set<char> := {
    '\t', '\n', '\U{b}', '\U{c}', '\r', ' ', '\U{a0}', '\U{1680}',
    '\U{2000}', '\U{2001}', '\U{2002}', '\U{2003}', '\U{2004}', '\U{2005}',
    '\U{2006}', '\U{2007}', '\U{2008}', '\U{2009}', '\U{200a}',
    '\U{2028}', '\U{2029}', '\U{202f}', '\U{205f}', '\U{3000}', '\U{feff}'
  }

  /** JavaScript's `s.trim()`. */
  function Trim(s: string): (r: string)
    ensures r == [] || (r[0] !in JS_WHITESPACE && r[|r| - 1] !in JS_WHITESPACE)
    ensures EdgeCut(s, r, JS_WHITESPACE)
    ensures Contains(s, r)
    ensures r == [] <==> forall k :: 0 <= k < |s| ==> s[k] in JS_WHITESPACE
  {
    TrimBy(s, JS_WHITESPACE)
  }

  // ---------------------------------------------------------------------
  // The link pattern `/https?:\/\/[\w\-._~:/?#[\]@!$&'()*+,;=%]+/i`

  /** The punctuation of the pattern's character class. */
  const URL_PUNCTUATION: set<char> := {
    '-', '.', '_', '~', ':', '/', '?', '#', '[', ']', '@', '!', '$', '&', '\'',
    '(', ')', '*', '+', ',', ';', '=', '%'
  }

  /** A member of the pattern's character class: `\w` (ASCII letters, digits
      and `_`) or one of the punctuation characters. */
  predicate IsUrlChar(c: char) {
    'a' <= c <= 'z' || 'A' <= c <= 'Z' || '0' <= c <= '9' || c in URL_PUNCTUATION
  }

  /** `c` matches the letter `lower` under the `i` flag. */
  predicate IsLetter(c: char, lower: char) {
    PyText.LowerChar(c) == lower
  }

  /** `http` in any letter case at `i`. */
  predicate HttpAt(s: string, i: nat) {
    i + 4 <= |s| && IsLetter(s[i], 'h') && IsLetter(s[i + 1], 't') && IsLetter(s[i + 2], 't') && IsLetter(s[i + 3], 'p')
  }

  /** `://` at `j`. */
  predicate SeparatorAt(s: string, j: nat) {
    j + 3 <= |s| && s[j] == ':' && s[j + 1] == '/' && s[j + 2] == '/'
  }

  /** The length of the `https?://` part matched at `i`: 8 with the `s`,
      7 without, None when neither matches. At most one of the two can match,
      so backtracking over the optional `s` never changes the outcome. */
  function SchemeLength(s: string, i: nat): (r: Option<nat>)
    ensures r.Some? ==> HttpAt(s, i) && (r.value == 7 || r.value == 8) && SeparatorAt(s, i + r.value - 3)
    ensures r == Some(8) ==> IsLetter(s[i + 4], 's')
    ensures r.None? ==> !(HttpAt(s, i) && SeparatorAt(s, i + 4)) &&
                        !(HttpAt(s, i) && i + 4 < |s| && IsLetter(s[i + 4], 's') && SeparatorAt(s, i + 5))
  {
    if HttpAt(s, i) && i + 4 < |s| && IsLetter(s[i + 4], 's') && SeparatorAt(s, i + 5) then Some(8)
    else if HttpAt(s, i) && SeparatorAt(s, i + 4) then Some(7)
    else None
  }

  /** The number of class characters from `j` on: the greedy `+` run. */
  function UrlRun(s: string, j: nat): (n: nat)
    requires j <= |s|
    ensures j + n <= |s|
    ensures forall k :: j <= k < j + n ==> IsUrlChar(s[k])
    ensures j + n < |s| ==> !IsUrlChar(s[j + n])
    decreases |s| - j
  {
    if j == |s| || !IsUrlChar(s[j]) then 0 else 1 + UrlRun(s, j + 1)
  }

  /** The pattern matches at `i`: a scheme and at least one class character. */
  predicate MatchesAt(s: string, i: nat) {
    var l := SchemeLength(s, i);
    l.Some? && i + l.value < |s| && IsUrlChar(s[i + l.value])
  }

  /** The length of the greedy match at `i`. */
  function MatchLength(s: string, i: nat): (n: nat)
    requires MatchesAt(s, i)
    ensures i + n <= |s|
  {
    var l := SchemeLength(s, i).value;
    l + UrlRun(s, i + l)
  }

  /** The leftmost position at or after `i` where the pattern matches. */
  function FirstMatchFrom(s: string, i: nat): (r: Option<nat>)
    ensures r.Some? ==> i <= r.value < |s| && MatchesAt(s, r.value)
    ensures forall j: nat :: i <= j && (r.None? || j < r.value) ==> !MatchesAt(s, j)
    decreases |s| - i
  {
    if i >= |s| then None
    else if MatchesAt(s, i) then Some(i)
    else FirstMatchFrom(s, i + 1)
  }

  /** A whole match: a scheme followed by a non-empty run of class characters. */
  predicate IsUrlToken(m: string) {
    var l := SchemeLength(m, 0);
    l.Some? && l.value < |m| && forall k :: l.value <= k < |m| ==> IsUrlChar(m[k])
  }

  /** The scheme test at `i` of `s` only looks at the characters from `i` on. */
  lemma SchemeLengthShift(s: string, i: nat, n: nat)
    requires MatchesAt(s, i) && SchemeLength(s, i).value < n && i + n <= |s|
    ensures SchemeLength(s[i..i + n], 0) == SchemeLength(s, i)
  {
    var m := s[i..i + n];
    var l := SchemeLength(s, i).value;
    assert forall k :: 0 <= k < l ==> m[k] == s[i + k];
  }

  /** No position before `i` starts a match. */
  predicate NoMatchBefore(s: string, i: nat) {
    forall j: nat :: j < i ==> !MatchesAt(s, j)
  }

  /** `m` is the link found at `i`: it occurs there, it is link-shaped, no
      match starts earlier, and the character after it (if any) is outside
      the class, so the match is as long as it can be. */
  predicate FirstLinkAt(s: string, m: string, i: nat) {
    && OccursAt(s, m, i)
    && IsUrlToken(m)
    && NoMatchBefore(s, i)
    && (i + |m| < |s| ==> !IsUrlChar(s[i + |m|]))
  }

  /** The greedy match at the leftmost matching position is the link found. */
  lemma MatchIsFirstLink(s: string, i: nat)
    requires FirstMatchFrom(s, 0) == Some(i)
    ensures FirstLinkAt(s, s[i..i + MatchLength(s, i)], i)
  {
    var l := SchemeLength(s, i).value;
    var run := UrlRun(s, i + l);
    var n := l + run;
    assert n == MatchLength(s, i);
    assert run > 0;
    var m := s[i..i + n];
    SchemeLengthShift(s, i, n);
    assert IsUrlToken(m) by {
      assert forall k :: l <= k < |m| ==> m[k] == s[i + k];
    }
    assert NoMatchBefore(s, i);
  }

  /** `pattern.exec(s)?.[0]`: the leftmost match, extended greedily. */
  function UrlMatch(s: string): (r: Option<string>)
    ensures r.Some? <==> FirstMatchFrom(s, 0).Some?
    ensures r.None? <==> forall i: nat :: !MatchesAt(s, i)
    ensures r.Some? ==> FirstLinkAt(s, r.value, FirstMatchFrom(s, 0).value)
  {
    match FirstMatchFrom(s, 0)
    case None => None
    case Some(i) =>
      MatchIsFirstLink(s, i);
      Some(s[i..i + MatchLength(s, i)])
  }

  /** A text without the letters of `http` has no link. */
  lemma NoLinkWithoutH(s: string)
    requires 'h' !in s && 'H' !in s
    ensures UrlMatch(s).None?
  {
    forall i: nat
      ensures !MatchesAt(s, i)
    {
      if i < |s| {
        assert s[i] in s;
        assert !IsLetter(s[i], 'h');
      }
    }
  }

  // ---------------------------------------------------------------------
  // Key actions

  /** A key action as it arrives in the reply: a string, an object with
      optional `label` and `url` strings, or any other value together with
      its string conversion. */
  datatype KeyAction = Text(text: string) | Record(caption: Option<string>, link: Option<string>) | Other(asText: string)

  /** A key action as shown: the button's caption and its link, if any. */
  datatype ShownAction = ShownAction(caption: string, url: Option<string>)

  /** JavaScript truthiness of an optional string. */
  predicate Truthy(x: Option<string>) {
    x.Some? && x.value != ""
  }

  /** The string conversion `exec` applies to its argument. */
  function AsText(a: KeyAction): string {
    match a
    case Text(t) => t
    case Record(_, _) => "[object Object]"
    case Other(t) => t
  }

  /** The normalisation inside the `keyActions.map`. */
  function NormalizeAction(a: KeyAction): (r: ShownAction)
    ensures a.Record? && Truthy(a.caption) && Truthy(a.link) ==> r == ShownAction(a.caption.value, a.link)
    ensures !(a.Record? && Truthy(a.caption) && Truthy(a.link)) ==>
      r.caption == (if a.Text? then a.text else "") && r.url == UrlMatch(AsText(a))
    ensures r.url.Some? ==> r.url.value != ""
  {
    if a.Record? && Truthy(a.caption) && Truthy(a.link) then ShownAction(a.caption.value, a.link)
    else ShownAction(if a.Text? then a.text else "", UrlMatch(AsText(a)))
  }

  /** A string action keeps its whole text as caption; its link is the
      first link inside the text. */
  lemma TextActionShown(t: string)
    ensures NormalizeAction(Text(t)).caption == t
    ensures NormalizeAction(Text(t)).url.Some? ==> Contains(t, NormalizeAction(Text(t)).url.value)
    ensures NormalizeAction(Text(t)).url.Some? ==> IsUrlToken(NormalizeAction(Text(t)).url.value)
  {
    var r := UrlMatch(t);
    if r.Some? {
      assert FirstLinkAt(t, r.value, FirstMatchFrom(t, 0).value);
      assert OccursAt(t, r.value, FirstMatchFrom(t, 0).value);
    }
  }

  /** An object without a truthy label and url is shown with an empty
      caption and no link: its string form has no link in it. */
  lemma IncompleteRecordShown(caption: Option<string>, link: Option<string>)
    requires !(Truthy(caption) && Truthy(link))
    ensures NormalizeAction(Record(caption, link)) == ShownAction("", None)
  {
    NoLinkWithoutH("[object Object]");
  }

  // ---------------------------------------------------------------------
  // The component state

  /** An entry of the saved-links list. */
  datatype SavedLink = SavedLink(caption: string, url: string)

  /** The urls of a list of links are non-empty and pairwise different. */
  predicate DistinctUrls(links: seq<SavedLink>) {
    && (forall l <- links :: l.url != "")
    && (forall i, j :: 0 <= i < j < |links| ==> links[i].url != links[j].url)
  }

  /** The JSON body of a successful reply; a missing field is None. */
  datatype SummaryJson = SummaryJson(summary: Option<string>, keyActions: Option<seq<KeyAction>>)

  /** How the request ended: `fetch` or `response.json()` rejected with a
      message, a reply whose status is not ok, or an ok reply's body. */
  datatype Outcome = Rejected(message: string) | NotOk(statusText: string) | Ok(body: SummaryJson)

  const INVALID_URL := "PLEASE ENTER A VALID URL"
  const FETCH_FAILED := "Failed to fetch summary: "

  /** The error message set for a request that did not end with an ok reply. */
  function FailureMessage(outcome: Outcome): (m: string)
    requires !outcome.Ok?
    ensures StartsWith(m, FETCH_FAILED)
    ensures outcome.Rejected? ==> m[|FETCH_FAILED|..] == outcome.message
    ensures outcome.NotOk? ==> m[|FETCH_FAILED|..] == "Error: " + outcome.statusText
  {
    match outcome
    case Rejected(message) => FETCH_FAILED + message
    case NotOk(statusText) => FETCH_FAILED + "Error: " + statusText
  }

  class App {
    var url: string
    var loading: bool
    var error: string
    var summary: string
    var keyActions: seq<KeyAction>
    var submitted: bool
    var savedLinks: seq<SavedLink>

    /** The saved links never repeat a url. */
    predicate Valid()
      reads this
    {
      DistinctUrls(savedLinks)
    }

    /** The results section is rendered. */
    predicate ShowsResults()
      reads this
    {
      submitted && !loading && summary != ""
    }

    /** The initial state of every `useState`. */
    constructor ()
      ensures url == "" && !loading && error == "" && summary == "" && keyActions == []
      ensures !submitted && savedLinks == []
      ensures Valid()
    {
      url, loading, error, summary, keyActions, submitted, savedLinks := "", false, "", "", [], false, [];
    }

    /** The input's `onChange`. */
    method SetUrl(text: string)
      modifies this`url
      ensures url == text
    {
      url := text;
    }

    /** The synchronous part of `handleSubmit`: clears the previous result,
        then either rejects a blank url or returns the body's url, the
        trimmed input, for the request. */
    method StartSubmit() returns (request: Option<string>)
      modifies this`error, this`summary, this`keyActions, this`loading, this`submitted
      ensures summary == "" && keyActions == [] && submitted
      ensures request.None? <==> Trim(url) == ""
      ensures request.None? ==> error == INVALID_URL && !loading
      ensures request.Some? ==> request.value == Trim(url) && error == "" && loading
      ensures !ShowsResults()
    {
      error, summary, keyActions, loading, submitted := "", "", [], true, true;
      var trimmed := Trim(url);
      if trimmed == "" {
        error, loading := INVALID_URL, false;
        return None;
      }
      return Some(trimmed);
    }

    /** The asynchronous part of `handleSubmit`, once the request ends: an ok
        reply fills `summary` and `keyActions` (`''` and `[]` when missing),
        anything else sets the error; loading stops in every case. */
    method FinishSubmit(outcome: Outcome)
      modifies this`error, this`summary, this`keyActions, this`loading
      ensures !loading
      ensures outcome.Ok? ==>
        && error == old(error)
        && summary == (if outcome.body.summary.Some? then outcome.body.summary.value else "")
        && keyActions == (if outcome.body.keyActions.Some? then outcome.body.keyActions.value else [])
      ensures !outcome.Ok? ==>
        error == FailureMessage(outcome) && summary == old(summary) && keyActions == old(keyActions)
    {
      loading := false;
      match outcome
      case Ok(body) =>
        summary := if body.summary.Some? then body.summary.value else "";
        keyActions := if body.keyActions.Some? then body.keyActions.value else [];
      case _ =>
        error := FailureMessage(outcome);
    }

    /** `handleReset`: clears the form and the result, keeps the saved links. */
    method Reset()
      modifies this`url, this`summary, this`keyActions, this`error, this`submitted
      ensures url == "" && summary == "" && keyActions == [] && error == "" && !submitted
      ensures !ShowsResults()
    {
      url, summary, keyActions, error, submitted := "", "", [], "", false;
    }

    /** `handleSaveLink(caption, link)`: appends the link unless it is empty
        or its url is already saved. */
    method SaveLink(caption: string, link: string)
      modifies this`savedLinks
      ensures link == "" || (exists l <- old(savedLinks) :: l.url == link) ==> savedLinks == old(savedLinks)
      ensures link != "" && (forall l <- old(savedLinks) :: l.url != link) ==>
        savedLinks == old(savedLinks) + [SavedLink(caption, link)]
      ensures link != "" ==> exists l <- savedLinks :: l.url == link
      ensures old(Valid()) ==> Valid()
    {
      if link == "" || (exists l <- savedLinks :: l.url == link) {
        return;
      }
      savedLinks := savedLinks + [SavedLink(caption, link)];
      assert savedLinks[|savedLinks| - 1].url == link;
    }
  }

  /** A blank submission shows the error and no result, sends nothing, and a
      reset afterwards clears the error while the saved links stay. */
  method BlankSubmitThenReset() {
    var app := new App();
    app.SaveLink("Apply", "https://example.com/apply");
    app.SetUrl(" \t ");
    var request := app.StartSubmit();
    assert request.None? && app.error == INVALID_URL && !app.loading && app.submitted;
    app.Reset();
    assert app.error == "" && !app.submitted && app.savedLinks == [SavedLink("Apply", "https://example.com/apply")];
    app.SaveLink("Apply again", "https://example.com/apply");
    assert |app.savedLinks| == 1;
  }
}
