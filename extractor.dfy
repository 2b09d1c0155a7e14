/** The `Website` class: URL normalisation, the static fetch with its single
    fallback to a headless browser, and the processing of the parsed page. */
module Extractor {
  import opened Wrappers
  import opened PyRuntime
  import opened Services
  import Urls

  /** The title stored when the document has no `<title>` element. */
  const NoTitle := "No title found"

  /** The elements removed before the body text is taken. How they are
      removed and how the text is joined belongs to the HTML library and is
      folded into `Document.bodyText`. */
  const IrrelevantTags: seq<string> := ["script", "style", "img", "input", "iframe", "noscript"]

  /** The title `_process_content` stores for `doc`. */
  function TitleOf(doc: Document): Option<string> {
    match doc.title
    case Some(tag) => tag.str
    case None => Some(NoTitle)
  }

  /** The text `_process_content` stores for `doc`. */
  function TextOf(doc: Document): string {
    match doc.bodyText
    case Some(t) => t
    case None => ""
  }

  /** What one fetch strategy (or both together) did: the document it
      produced or the exception it raised, the calls it made, and the
      documents it handed to `_process_content`. */
  datatype Attempt = Attempt(result: Result<Document, Exc>, effects: seq<Effect>, processed: seq<Document>)

  /** The exception an attempt raised, if any. */
  function Raised(r: Result<Document, Exc>): Option<Exc> {
    match r
    case Ok(_) => None
    case Err(e) => Some(e)
  }

  /** `_fetch_static`: one GET, and processing when it yields a page. */
  function StaticAttempt(url: string, net: Network): Attempt {
    var page := net.fetch(url);
    Attempt(page, [HttpGet(url)], if page.Ok? then [page.value] else [])
  }

  /** `_fetch_dynamic`: starting the driver is outside the `try`, so a failed
      start raises without `quit()`; once started, navigation and processing
      run inside `try` and `quit()` runs in `finally`, where an exception of
      its own replaces whatever was pending. */
  function DynamicAttempt(url: string, browser: Browser): Attempt {
    match browser.launch
    case Fail(e) => Attempt(Err(e), [LaunchBrowser], [])
    case Pass =>
      var page := browser.load(url);
      var effects := [LaunchBrowser, BrowserGet(url), QuitBrowser];
      var processed := if page.Ok? then [page.value] else [];
      match browser.quit
      case Fail(e) => Attempt(Err(e), effects, processed)
      case Pass => Attempt(page, effects, processed)
  }

  /** The fetch in `__init__`: static first; the browser only when the static
      fetch raised something `except Exception` catches. */
  function LoadAttempt(url: string, net: Network): Attempt {
    var first := StaticAttempt(url, net);
    if first.result.Ok? || !CaughtByExceptException(first.result.error) then first
    else
      var second := DynamicAttempt(url, net.browser);
      Attempt(second.result, first.effects + second.effects, first.processed + second.processed)
  }

  class Website {
    var url: string
    var title: Option<string>
    var text: string
    /** The documents processed so far; the fields `title` and `text` exist
        in the source only once this is non-empty. */
    ghost var processed: seq<Document>
    /** The calls this object has made to the outside world. */
    ghost var effects: seq<Effect>

    /** The state `a` leaves behind, raising `raised`: the trace and the
        processed documents grow by the attempt's, and the fields hold what
        the last processed document gave them. */
    twostate predicate Performed(new a: Attempt, new raised: Option<Exc>)
      reads this
    {
      && url == old(url)
      && raised == Raised(a.result)
      && effects == old(effects) + a.effects
      && processed == old(processed) + a.processed
      && if a.processed == [] then title == old(title) && text == old(text)
         else title == TitleOf(a.processed[|a.processed| - 1]) && text == TextOf(a.processed[|a.processed| - 1])
    }

    /** The URL handling at the start of `__init__`; the fetch is `Load`. */
    constructor (rawUrl: string)
      ensures url == Urls.Normalize(rawUrl)
      ensures processed == [] && effects == []
    {
      url := Urls.Normalize(rawUrl);
      title := None;
      text := "";
      processed := [];
      effects := [];
    }

    /** `_process_content`: the title or the fallback, and the body text or "". */
    method ProcessContent(doc: Document)
      modifies this
      ensures title == (if doc.title.Some? then doc.title.value.str else Some(NoTitle))
      ensures text == (if doc.bodyText.Some? then doc.bodyText.value else "")
      ensures processed == old(processed) + [doc]
      ensures url == old(url) && effects == old(effects)
    {
      title := if doc.title.Some? then doc.title.value.str else Some(NoTitle);
      text := if doc.bodyText.Some? then doc.bodyText.value else "";
      processed := processed + [doc];
    }

    /** `_fetch_static`. */
    method FetchStatic(net: Network) returns (raised: Option<Exc>)
      modifies this
      ensures Performed(StaticAttempt(url, net), raised)
    {
      effects := effects + [HttpGet(url)];
      var page := net.fetch(url);
      match page {
        case Err(e) =>
          raised := Some(e);
        case Ok(doc) =>
          ProcessContent(doc);
          raised := None;
      }
    }

    /** `_fetch_dynamic`, with its `try`/`finally` around the browser. */
    method FetchDynamic(browser: Browser) returns (raised: Option<Exc>)
      modifies this
      ensures Performed(DynamicAttempt(url, browser), raised)
    {
      effects := effects + [LaunchBrowser];
      if browser.launch.Fail? {
        return Some(browser.launch.error);
      }
      var pending: Option<Exc> := None;
      effects := effects + [BrowserGet(url)];
      var page := browser.load(url);
      match page {
        case Err(e) =>
          pending := Some(e);
        case Ok(doc) =>
          ProcessContent(doc);
      }
      // finally
      effects := effects + [QuitBrowser];
      raised := if browser.quit.Fail? then Some(browser.quit.error) else pending;
    }

    /** The fetch in `__init__`, lines `try: _fetch_static() except Exception: _fetch_dynamic()`. */
    method Load(net: Network) returns (raised: Option<Exc>)
      modifies this
      ensures Performed(LoadAttempt(url, net), raised)
    {
      raised := FetchStatic(net);
      if raised.Some? && CaughtByExceptException(raised.value) {
        raised := FetchDynamic(net.browser);
      }
    }
  }
}
