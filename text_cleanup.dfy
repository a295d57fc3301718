/** The two string steps of `fetch_website_text`, shared by both backends:
    defaulting the URL scheme before the request, and flattening the page's
    visible text into one line of space-separated chunks, cut to a limit
    (8000 characters in backend/app.py, 4000 in backend/app_debug.py). */
module TextCleanup {
  import opened Wrappers
  import opened Strings
  import opened PyText

  /** `if not url.startswith('http'): url = 'https://' + url`. */
  function WithScheme(url: string): (r: string)
    ensures StartsWith(r, "http")
    ensures r == url <==> StartsWith(url, "http")
    ensures r != url ==> r == "https://" + url
  {
    if StartsWith(url, "http") then url else "https://" + url
  }

  /** Defaulting the scheme twice is the same as defaulting it once. */
  lemma WithSchemeIdempotent(url: string)
    ensures WithScheme(WithScheme(url)) == WithScheme(url)
  {
  }

  /** `phrase.strip()` for each phrase. */
  function StripAll(xs: seq<string>): (r: seq<string>)
    ensures |r| == |xs|
    ensures forall k :: 0 <= k < |xs| ==> r[k] == Strip(xs[k])
  {
    if xs == [] then [] else [Strip(xs[0])] + StripAll(xs[1..])
  }

  /** `chunk for chunk in chunks if chunk`: the non-empty strings, in order. */
  function DropEmpty(xs: seq<string>): (r: seq<string>)
    ensures forall c <- r :: c != [] && c in xs
    ensures forall c <- xs :: c != [] ==> c in r
    ensures |r| <= |xs|
  {
    if xs == [] then []
    else if xs[0] == [] then DropEmpty(xs[1..])
    else [xs[0]] + DropEmpty(xs[1..])
  }

  /** Dropping the empty strings keeps the order of the rest: it distributes
      over concatenation. */
  lemma {:induction false} DropEmptyAppend(a: seq<string>, b: seq<string>)
    ensures DropEmpty(a + b) == DropEmpty(a) + DropEmpty(b)
    decreases |a|
  {
    if a == [] {
      assert a + b == b;
    } else {
      DropEmptyAppend(a[1..], b);
      assert (a + b)[1..] == a[1..] + b;
    }
  }

  /** On one string, exactly a non-empty one is kept. */
  lemma DropEmptyOne(x: string)
    ensures DropEmpty([x]) == (if x == [] then [] else [x])
  {
    assert [x][1..] == [];
  }

  /** The stripped phrases of one stripped line: `line.split("  ")`. */
  function LinePhrases(line: string): seq<string> {
    StripAll(Split(line, "  "))
  }

  /** The phrases of all lines, line by line. */
  function Phrases(lines: seq<string>): seq<string> {
    if lines == [] then [] else LinePhrases(Strip(lines[0])) + Phrases(lines[1..])
  }

  /** The chunks that `' '.join` glues together. */
  function Chunks(text: string): seq<string> {
    DropEmpty(Phrases(SplitLines(text)))
  }

  /** A chunk: non-empty, not starting or ending with whitespace, without a
      line boundary and without two spaces in a row. */
  predicate Tidy(c: string) {
    && c != []
    && c[0] !in WHITESPACE && c[|c| - 1] !in WHITESPACE
    && Avoids(c, LINE_BREAKS)
    && NoDoubled(c, ' ')
  }

  /** A stripped phrase is empty or tidy. */
  lemma PhraseTidy(line: string, piece: string)
    requires Avoids(line, LINE_BREAKS)
    requires !Contains(piece, "  ") && Contains(line, piece)
    ensures Strip(piece) == [] || Tidy(Strip(piece))
  {
    assert "  " == [' ', ' '];
    NotContainsPair(piece, ' ');
    ContainsKeeps(line, piece, LINE_BREAKS, ' ');
    ContainsKeeps(piece, Strip(piece), LINE_BREAKS, ' ');
  }

  /** Every phrase of a line without line boundaries is empty or tidy. */
  lemma LinePhrasesTidy(line: string)
    requires Avoids(line, LINE_BREAKS)
    ensures forall p <- LinePhrases(Strip(line)) :: p == [] || Tidy(p)
  {
    var stripped := Strip(line);
    ContainsKeeps(line, stripped, LINE_BREAKS, ' ');
    var pieces := Split(stripped, "  ");
    SplitPieces(stripped, "  ");
    forall k | 0 <= k < |pieces|
      ensures Strip(pieces[k]) == [] || Tidy(Strip(pieces[k]))
    {
      PhraseTidy(stripped, pieces[k]);
    }
  }

  /** Every phrase of lines without line boundaries is empty or tidy. */
  lemma {:induction false} PhrasesTidy(lines: seq<string>)
    requires forall l <- lines :: Avoids(l, LINE_BREAKS)
    ensures forall p <- Phrases(lines) :: p == [] || Tidy(p)
  {
    if lines != [] {
      LinePhrasesTidy(lines[0]);
      PhrasesTidy(lines[1..]);
    }
  }

  /** Every chunk of any text is tidy. */
  lemma ChunksTidy(text: string)
    ensures forall c <- Chunks(text) :: Tidy(c)
  {
    PhrasesTidy(SplitLines(text));
  }

  /** Tidy chunks joined by single spaces give one line with no doubled
      space and no whitespace at either end. */
  lemma {:induction false} JoinTidy(parts: seq<string>)
    requires forall c <- parts :: Tidy(c)
    ensures Join(parts, " ") == [] <==> parts == []
    ensures Avoids(Join(parts, " "), LINE_BREAKS)
    ensures NoDoubled(Join(parts, " "), ' ')
    ensures parts != [] ==> Tidy(Join(parts, " "))
  {
    if |parts| == 1 {
      assert parts[0] in parts;
    } else if |parts| >= 2 {
      var p := parts[0];
      assert p in parts;
      var rest := Join(parts[1..], " ");
      JoinTidy(parts[1..]);
      var j := p + " " + rest;
      assert Join(parts, " ") == j;
      assert rest != [] && Tidy(rest);
      assert ' ' !in LINE_BREAKS && ' ' in WHITESPACE;
      forall k | 0 <= k < |j|
        ensures j[k] !in LINE_BREAKS
      {
        if k < |p| {
          assert j[k] == p[k];
        } else if k > |p| {
          assert j[k] == rest[k - |p| - 1];
        }
      }
      forall k | 0 <= k < |j| - 1
        ensures !(j[k] == ' ' && j[k + 1] == ' ')
      {
        if k < |p| - 1 {
          assert j[k] == p[k] && j[k + 1] == p[k + 1];
        } else if k == |p| - 1 {
          assert j[k] == p[|p| - 1];
        } else if k == |p| {
          assert j[k + 1] == rest[0];
        } else {
          assert j[k] == rest[k - |p| - 1] && j[k + 1] == rest[k - |p|];
        }
      }
      assert j[|j| - 1] == rest[|rest| - 1];
    }
  }

  /** The cleanup of `fetch_website_text`: split the text into lines, strip
      each, split each on double spaces, strip each piece, drop the empty
      ones, join the rest with single spaces and keep the first `limit`
      characters. */
  function CleanText(text: string, limit: nat): (r: string)
    ensures |r| <= limit
    ensures r <= Join(Chunks(text), " ")
    ensures |Join(Chunks(text), " ")| <= limit ==> r == Join(Chunks(text), " ")
    ensures Avoids(r, LINE_BREAKS)
    ensures NoDoubled(r, ' ')
    ensures r == [] || r[0] !in WHITESPACE
  {
    ChunksTidy(text);
    JoinTidy(Chunks(text));
    Truncate(Join(Chunks(text), " "), limit)
  }

  /** With a positive limit, the cleaned text is empty exactly when the page
      yields no chunk at all. */
  lemma CleanTextEmpty(text: string, limit: nat)
    requires limit > 0
    ensures CleanText(text, limit) == [] <==> Chunks(text) == []
  {
    ChunksTidy(text);
    JoinTidy(Chunks(text));
  }

  /** `fetch_website_text(url)`: the page comes from the URL with its scheme
      defaulted, and its text is cleaned and cut to `limit` characters.
      `fetch` gives the page's visible text, None when the request or the
      parse raises. */
  function FetchWebsiteText(url: string, fetch: string -> Option<string>, limit: nat): (r: Option<string>)
    ensures r.None? <==> fetch(WithScheme(url)).None?
    ensures r.Some? ==> |r.value| <= limit && r.value <= Join(Chunks(fetch(WithScheme(url)).value), " ")
    ensures r.Some? ==> Avoids(r.value, LINE_BREAKS) && NoDoubled(r.value, ' ')
  {
    match fetch(WithScheme(url))
    case None => None
    case Some(page) => Some(CleanText(page, limit))
  }
}
