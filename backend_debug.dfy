/** The first definitions of backend/app_debug.py, lines 1-202 (started as a
    script, the file serves these: `app.run` at line 202 blocks):
    the `/api/summarize` handler's validation branches, the text fetch with
    a 4000-character cleanup, and the reply handling of `summarize_with_ai`,
    whose client either raises or returns the message content. */
module DebugBackend {
  import opened Wrappers
  import opened Strings
  import opened PyText
  import opened TextCleanup
  import ResponseParser

  /** The text length this `fetch_website_text` keeps. */
  const TEXT_LIMIT: nat := 4000

  const NO_URL := "No URL provided in request"
  const NO_TEXT := "Could not extract text from website. Website might be blocking scrapers or URL is invalid."

  /** `fetch_website_text(url)` of backend/app_debug.py, with its 4000-character limit. */
  function FetchWebsiteText(url: string, fetch: string -> Option<string>): (r: Option<string>)
    ensures r.None? <==> fetch(WithScheme(url)).None?
    ensures r.Some? ==> |r.value| <= 4000
  {
    TextCleanup.FetchWebsiteText(url, fetch, TEXT_LIMIT)
  }

  /** `summarize_with_ai(website_text)`. `completion` is the message content
      the client returns, None when the call raises. */
  method SummarizeWithAi(hasClient: bool, completion: Option<string>) returns (summary: string, keyActions: seq<string>)
    ensures !hasClient ==> summary == "No API key" && keyActions == ["Configure your API key in .env"]
    ensures hasClient && completion.None? ==>
      summary == "Error summarizing website" && keyActions == ["Please try again"]
    ensures hasClient && completion.Some? ==>
      var lines := Split(completion.value, "\n");
      summary == ResponseParser.Summary(lines) && keyActions == ResponseParser.KeyActions(lines)
  {
    if !hasClient {
      return "No API key", ["Configure your API key in .env"];
    }
    match completion
    case None =>
      summary, keyActions := "Error summarizing website", ["Please try again"];
    case Some(text) =>
      summary, keyActions := ResponseParser.ParseResponse(text);
  }

  /** The JSON answer of `/api/summarize`, with its HTTP status for errors. */
  datatype Response = Failure(status: int, error: string) | Success(summary: string, keyActions: seq<string>)

  /** What one request to `/api/summarize` does: the URL it fetches, the
      page text it hands to the language model, and the answer it sends. */
  datatype Exchange = Exchange(fetched: Option<string>, prompted: Option<string>, response: Response)

  /** The `/api/summarize` handler. `url` is `data.get('url')`. */
  method Summarize(url: Option<string>, fetch: string -> Option<string>, hasClient: bool, completion: Option<string>)
    returns (x: Exchange)
    ensures url.None? || url.value == "" ==> x == Exchange(None, None, Failure(400, NO_URL))
    ensures url.Some? && url.value != "" ==> x.fetched == Some(WithScheme(url.value))
    ensures url.Some? && url.value != "" && FetchWebsiteText(url.value, fetch) in {None, Some("")} ==>
      x.prompted.None? && x.response == Failure(400, NO_TEXT)
    ensures x.prompted.Some? ==> x.prompted.value != "" && |x.prompted.value| <= TEXT_LIMIT
    ensures x.response.Success? ==>
      url.Some? && var text := FetchWebsiteText(url.value, fetch);
      text.Some? && text.value != "" && x.prompted == (if hasClient then text else None)
    ensures url.Some? && url.value != "" && FetchWebsiteText(url.value, fetch) !in {None, Some("")} ==>
      x.response.Success? &&
      (!hasClient ==> x.response == Success("No API key", ["Configure your API key in .env"])) &&
      (hasClient && completion.None? ==> x.response == Success("Error summarizing website", ["Please try again"])) &&
      (hasClient && completion.Some? ==>
        var lines := Split(completion.value, "\n");
        x.response == Success(ResponseParser.Summary(lines), ResponseParser.KeyActions(lines)))
  {
    if url.None? || url.value == "" {
      return Exchange(None, None, Failure(400, NO_URL));
    }
    var fetched := Some(WithScheme(url.value));
    var websiteText := FetchWebsiteText(url.value, fetch);
    if websiteText.None? || websiteText.value == "" {
      return Exchange(fetched, None, Failure(400, NO_TEXT));
    }
    var summary, keyActions := SummarizeWithAi(hasClient, completion);
    var prompted := if hasClient then websiteText else None;
    x := Exchange(fetched, prompted, Success(summary, keyActions));
  }
}
