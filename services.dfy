/** The external collaborators of the script, reduced to the values it sees:
    parsed documents, fetch outcomes, the browser, the text-generation
    service, and a trace of every call made to them. */
module Services {
  import opened Wrappers
  import opened PyRuntime

  /** The `<title>` element of a document; `str` is its `.string`, which is
      `None` unless the element holds exactly one string. */
  datatype TitleTag = TitleTag(str: Option<string>)

  /** A parsed HTML document, as far as the script looks at it: its first
      `<title>` element if any, and, if the document has a `<body>`, the text
      that `get_text(separator="\n", strip=True)` yields for that body once
      the irrelevant elements have been removed. */
  datatype Document = Document(title: Option<TitleTag>, bodyText: Option<string>)

  /** A headless browser session: whether starting the driver succeeds, what
      navigating to a URL and parsing the rendered page source gives, and
      whether `quit()` succeeds. */
  datatype Browser = Browser(
    launch: Outcome<Exc>,
    load: string -> Result<Document, Exc>,
    quit: Outcome<Exc>)

  /** The outside world of the extractor: a plain HTTP GET whose body is
      parsed as HTML (any status code counts as a page), and a browser. */
  datatype Network = Network(fetch: string -> Result<Document, Exc>, browser: Browser)

  /** One message of a text-generation request. */
  datatype Message = Message(role: string, content: string)

  /** A request to the text-generation service. */
  datatype Request = Request(model: string, maxTokens: nat, system: string, messages: seq<Message>)

  /** One content segment of the service's response. */
  datatype Segment = Segment(text: string)

  /** The text-generation service: the content segments of its response, or
      the exception the client raises. */
  type Service = Request -> Result<seq<Segment>, Exc>

  /** A call made to the outside world. */
  datatype Effect =
    | HttpGet(url: string)
    | LaunchBrowser
    | BrowserGet(url: string)
    | QuitBrowser
    | CreateMessage(request: Request)

  /** How many times `e` occurs in the trace `s`. */
  function Count(e: Effect, s: seq<Effect>): nat {
    if s == [] then 0 else (if s[0] == e then 1 else 0) + Count(e, s[1..])
  }

  lemma CountCons(e: Effect, x: Effect, s: seq<Effect>)
    ensures Count(e, [x] + s) == (if x == e then 1 else 0) + Count(e, s)
  {
    assert ([x] + s)[1..] == s;
  }
}
