/** The string logic of backend/app.py: the keyword classifier, the
    action extraction over the parsed page, the text fetch with its cleanup,
    and the summarisation reply handling. The network, the HTML parser and
    the language model are parameters: a page is the document-order list of
    the elements the parser finds, and a fetch maps a URL to the page's
    visible text (None when the request or the parse raises). */
module Backend {
  import opened Wrappers
  import opened Strings
  import opened PyText
  import opened TextCleanup
  import ResponseParser

  /** The keywords of `extract_actions`' anchor filter, in its order. */
  const ACTION_KEYWORDS: seq<string> := ["apply", "submit", "register", "contact"]

  /** The keyword tests of `classify_type`, in priority order, with the kind
      each one yields. */
  const KIND_TABLE: seq<(string, string)> :=
    [("apply", "job_application"), ("contact", "contact"), ("register", "register"), ("submit", "form_submit")]

  const OTHER := "other"

  /** The text length `fetch_website_text` keeps. */
  const TEXT_LIMIT: nat := 8000

  /** `any(k in label.lower() for k in [...])`. */
  predicate HasActionKeyword(caption: string) {
    exists k <- ACTION_KEYWORDS :: Contains(Lower(caption), k)
  }

  /** `classify_type(label, url)`; the url is not consulted. */
  function ClassifyType(caption: string, url: string): (kind: string)
    ensures kind in {"job_application", "contact", "register", "form_submit", OTHER}
    ensures kind == OTHER <==> !HasActionKeyword(caption)
  {
    var l := Lower(caption);
    if Contains(l, "apply") then "job_application"
    else if Contains(l, "contact") then "contact"
    else if Contains(l, "register") then "register"
    else if Contains(l, "submit") then "form_submit"
    else OTHER
  }

  /** A reference reading of the classifier: the kind of the first table
      entry whose keyword occurs in `l`. */
  function FirstKind(l: string, table: seq<(string, string)>): string {
    if table == [] then OTHER
    else if Contains(l, table[0].0) then table[0].1
    else FirstKind(l, table[1..])
  }

  /** The classifier is the priority table, applied to the lowercased label,
      whatever the url. */
  lemma ClassifyTypeIsTable(caption: string, url: string)
    ensures ClassifyType(caption, url) == FirstKind(Lower(caption), KIND_TABLE)
  {
    var l := Lower(caption);
    var t1, t2, t3 := KIND_TABLE[1..], KIND_TABLE[2..], KIND_TABLE[3..];
    assert t1 == [("contact", "contact"), ("register", "register"), ("submit", "form_submit")];
    assert t2 == t1[1..] == [("register", "register"), ("submit", "form_submit")];
    assert t3 == t2[1..] == [("submit", "form_submit")];
    assert t3[1..] == [];
    assert FirstKind(l, t3) == if Contains(l, "submit") then "form_submit" else OTHER;
    assert FirstKind(l, t2) == if Contains(l, "register") then "register" else FirstKind(l, t3);
    assert FirstKind(l, t1) == if Contains(l, "contact") then "contact" else FirstKind(l, t2);
  }

  /** An element the HTML parser found: its tag name, its text as
      `get_text(strip=True)` gives it, and its `href`, `type` and `value`
      attributes when present. */
  datatype Element = Element(tag: string, text: string, href: Option<string>, typeAttr: Option<string>, value: Option<string>)

  /** One entry of the JSON list `extract_actions` returns. */
  datatype Action = Action(caption: string, url: string, kind: string)

  datatype ExtractResult = Extracted(actions: seq<Action>) | Rejected(status: int, error: string)

  /** The action a `<button>` yields. */
  function ButtonPick(url: string, e: Element): (r: Option<Action>)
    ensures r.Some? <==> e.tag == "button"
    ensures r.Some? ==> r.value.caption == e.text && r.value.url == url
    ensures r.Some? ==> r.value.kind == ClassifyType(e.text, url) && (r.value.kind == OTHER <==> !HasActionKeyword(e.text))
  {
    if e.tag == "button" then Some(Action(e.text, url, ClassifyType(e.text, url))) else None
  }

  /** The action an `<a href=...>` yields: only when its label holds a keyword. */
  function AnchorPick(url: string, urljoin: (string, string) -> string, e: Element): (r: Option<Action>)
    ensures r.Some? <==> e.tag == "a" && e.href.Some? && HasActionKeyword(e.text)
    ensures r.Some? ==> r.value.caption == e.text && r.value.url == urljoin(url, e.href.value)
    ensures r.Some? ==> r.value.kind == ClassifyType(e.text, e.href.value) && r.value.kind != OTHER
  {
    if e.tag == "a" && e.href.Some? && HasActionKeyword(e.text)
    then Some(Action(e.text, urljoin(url, e.href.value), ClassifyType(e.text, e.href.value)))
    else None
  }

  /** The action an `<input type="submit">` yields; its label is the `value`
      attribute, or "Submit" without one. */
  function SubmitPick(url: string, e: Element): (r: Option<Action>)
    ensures r.Some? <==> e.tag == "input" && e.typeAttr == Some("submit")
    ensures r.Some? ==> r.value.caption == (if e.value.Some? then e.value.value else "Submit")
    ensures r.Some? ==> r.value.url == url && r.value.kind == "form_submit"
  {
    if e.tag == "input" && e.typeAttr == Some("submit")
    then Some(Action(if e.value.Some? then e.value.value else "Submit", url, "form_submit"))
    else None
  }

  /** The actions `pick` yields for `els`, in document order. */
  function Collect(els: seq<Element>, pick: Element -> Option<Action>): seq<Action>
    decreases |els|
  {
    if els == [] then []
    else
      var init := Collect(els[..|els| - 1], pick);
      match pick(els[|els| - 1])
      case None => init
      case Some(a) => init + [a]
  }

  /** Taking one more element in document order appends its action, if any. */
  lemma CollectStep(els: seq<Element>, i: nat, pick: Element -> Option<Action>)
    requires i < |els|
    ensures Collect(els[..i + 1], pick)
         == Collect(els[..i], pick) + (if pick(els[i]).Some? then [pick(els[i]).value] else [])
  {
    assert els[..i + 1][..i] == els[..i];
  }

  /** Collecting keeps document order: the actions of a concatenation are the
      actions of the first part followed by those of the second. */
  lemma {:induction false} CollectAppend(a: seq<Element>, b: seq<Element>, pick: Element -> Option<Action>)
    ensures Collect(a + b, pick) == Collect(a, pick) + Collect(b, pick)
    decreases |b|
  {
    if b == [] {
      assert a + b == a;
    } else {
      var b' := b[..|b| - 1];
      CollectAppend(a, b', pick);
      assert (a + b)[..|a + b| - 1] == a + b';
      assert (a + b)[|a + b| - 1] == b[|b| - 1];
    }
  }

  /** Every collected action comes from some element. */
  lemma {:induction false} CollectFrom(els: seq<Element>, pick: Element -> Option<Action>)
    ensures forall x <- Collect(els, pick) :: exists e <- els :: pick(e) == Some(x)
    decreases |els|
  {
    if els != [] {
      var init := els[..|els| - 1];
      CollectFrom(init, pick);
      assert forall e <- init :: e in els;
      assert els[|els| - 1] in els;
    }
  }

  predicate ValidActionUrl(url: Option<string>) {
    url.Some? && url.value != "" && (StartsWith(url.value, "http://") || StartsWith(url.value, "https://"))
  }

  /** The `/api/extract-actions` handler: reject a missing or non-http(s)
      URL, then list the buttons, the keyword anchors and the submit inputs,
      in three passes over the page. */
  method ExtractActions(url: Option<string>, page: Option<seq<Element>>, urljoin: (string, string) -> string)
    returns (r: ExtractResult)
    ensures !ValidActionUrl(url) ==> r == Rejected(400, "Invalid URL")
    ensures ValidActionUrl(url) && page.None? ==> r == Rejected(500, "Failed to extract actions.")
    ensures ValidActionUrl(url) && page.Some? ==>
      r == Extracted(Collect(page.value, e => ButtonPick(url.value, e))
                   + Collect(page.value, e => AnchorPick(url.value, urljoin, e))
                   + Collect(page.value, e => SubmitPick(url.value, e)))
  {
    if !ValidActionUrl(url) {
      return Rejected(400, "Invalid URL");
    }
    if page.None? {
      return Rejected(500, "Failed to extract actions.");
    }
    var u, els := url.value, page.value;
    var buttons := e => ButtonPick(u, e);
    var anchors := e => AnchorPick(u, urljoin, e);
    var submits := e => SubmitPick(u, e);
    var actions: seq<Action> := [];
    for i := 0 to |els|
      invariant actions == Collect(els[..i], buttons)
    {
      CollectStep(els, i, buttons);
      if els[i].tag == "button" {
        actions := actions + [Action(els[i].text, u, ClassifyType(els[i].text, u))];
      }
    }
    assert els[..|els|] == els;
    ghost var afterButtons := actions;
    for i := 0 to |els|
      invariant actions == afterButtons + Collect(els[..i], anchors)
    {
      CollectStep(els, i, anchors);
      if els[i].tag == "a" && els[i].href.Some? {
        var caption := els[i].text;
        var href := els[i].href.value;
        if HasActionKeyword(caption) {
          actions := actions + [Action(caption, urljoin(u, href), ClassifyType(caption, href))];
        }
      }
    }
    ghost var afterAnchors := actions;
    for i := 0 to |els|
      invariant actions == afterAnchors + Collect(els[..i], submits)
    {
      CollectStep(els, i, submits);
      if els[i].tag == "input" && els[i].typeAttr == Some("submit") {
        var caption := if els[i].value.Some? then els[i].value.value else "Submit";
        actions := actions + [Action(caption, u, "form_submit")];
      }
    }
    r := Extracted(actions);
  }

  /** Every anchor action holds a keyword in its label, so its kind is never
      "other". */
  lemma AnchorActionsClassified(els: seq<Element>, url: string, urljoin: (string, string) -> string)
    ensures forall a <- Collect(els, e => AnchorPick(url, urljoin, e)) :: HasActionKeyword(a.caption) && a.kind != OTHER
  {
    CollectFrom(els, e => AnchorPick(url, urljoin, e));
  }

  /** Every submit action has kind "form_submit", the page's url, and the
      input's value or "Submit" as its label; every button action has the
      page's url. */
  lemma ButtonAndSubmitActions(els: seq<Element>, url: string)
    ensures forall a <- Collect(els, e => SubmitPick(url, e)) ::
      && a.kind == "form_submit" && a.url == url
      && exists e <- els :: SubmitPick(url, e) == Some(a) && a.caption == (if e.value.Some? then e.value.value else "Submit")
    ensures forall a <- Collect(els, e => ButtonPick(url, e)) :: a.url == url && a.kind == ClassifyType(a.caption, url)
  {
    CollectFrom(els, e => SubmitPick(url, e));
    CollectFrom(els, e => ButtonPick(url, e));
  }

  /** `fetch_website_text(url)` of backend/app.py, with its 8000-character limit. */
  function FetchWebsiteText(url: string, fetch: string -> Option<string>): (r: Option<string>)
    ensures r.None? <==> fetch(WithScheme(url)).None?
    ensures r.Some? ==> |r.value| <= 8000
  {
    TextCleanup.FetchWebsiteText(url, fetch, TEXT_LIMIT)
  }

  /** The JSON the chat-completions endpoint answers with, reduced to what
      `result.get('choices', [{}])[0].get('message', {}).get('content', '')`
      looks at. */
  datatype Message = Message(content: Option<string>)
  datatype Choice = Choice(message: Option<Message>)
  datatype ChatBody = NotJson | Json(choices: Option<seq<Choice>>)

  /** The outcome of the POST: it raised, or it returned a status and a body. */
  datatype HttpReply = Raised | Reply(status: int, body: ChatBody)

  /** The content the lookup chain yields; None where it raises (a body that
      is not JSON, an empty `choices` list). */
  function ReplyContent(body: ChatBody): (r: Option<string>)
    ensures r.None? <==> body.NotJson? || body.choices == Some([])
    ensures body.Json? && body.choices.None? ==> r == Some("")
    ensures body.Json? && body.choices.Some? && body.choices.value != [] ==>
      var c := body.choices.value[0];
      && (c.message.None? ==> r == Some(""))
      && (c.message.Some? && c.message.value.content.None? ==> r == Some(""))
      && (c.message.Some? && c.message.value.content.Some? ==> r == c.message.value.content)
  {
    match body
    case NotJson => None
    case Json(None) => Some("")
    case Json(Some(cs)) =>
      if cs == [] then None
      else match cs[0].message
        case None => Some("")
        case Some(m) => Some(if m.content.Some? then m.content.value else "")
  }

  /** `summarize_with_ai(website_text)` of backend/app.py. */
  method SummarizeWithAi(hasClient: bool, reply: HttpReply) returns (summary: string, keyActions: seq<string>)
    ensures !hasClient ==> summary == "No API key configured" && keyActions == ["Add API key to .env"]
    ensures hasClient && reply.Reply? && reply.status != 200 ==>
      summary == "AI service error" && keyActions == ["Please try again"]
    ensures hasClient && (reply.Raised? || (reply.status == 200 && ReplyContent(reply.body).None?)) ==>
      summary == "Error summarizing website" && keyActions == ["Please try again"]
    ensures hasClient && reply.Reply? && reply.status == 200 && ReplyContent(reply.body).Some? ==>
      var lines := Split(ReplyContent(reply.body).value, "\n");
      summary == ResponseParser.Summary(lines) && keyActions == ResponseParser.KeyActions(lines)
  {
    if !hasClient {
      return "No API key configured", ["Add API key to .env"];
    }
    if reply.Raised? {
      return "Error summarizing website", ["Please try again"];
    }
    if reply.status != 200 {
      return "AI service error", ["Please try again"];
    }
    match ReplyContent(reply.body)
    case None =>
      summary, keyActions := "Error summarizing website", ["Please try again"];
    case Some(text) =>
      summary, keyActions := ResponseParser.ParseResponse(text);
  }
}
