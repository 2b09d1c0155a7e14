/** `summarize`: fetch the page, build the prompt, ask the text-generation
    service, and return the first segment of its answer. */
module Summarizer {
  import opened Wrappers
  import opened PyRuntime
  import opened Services
  import opened Extractor
  import Urls
  import Prompt
  import FetchProperties

  const Model := "claude-3-opus-20240229"
  const MaxTokens: nat := 1000
  const SystemPrompt := "You are an assistant that analyzes the contents of a website and provides a short summary, ignoring text that might be navigation related. Respond in markdown."

  /** The request sent for a user prompt: the fixed model, limit and system
      instruction, and one user message holding the prompt. */
  function RequestFor(prompt: string): Request {
    Request(Model, MaxTokens, SystemPrompt, [Message("user", prompt)])
  }

  /** `response.content[0].text`: the first segment's text, or the
      IndexError that indexing an empty list raises. */
  function FirstText(content: seq<Segment>): (r: Result<string, Exc>)
    ensures r.Ok? <==> |content| > 0
    ensures r.Ok? ==> r.value == content[0].text
    ensures r.Err? ==> r.error == Exc(Exception, IndexErrorMessage)
  {
    if |content| == 0 then Err(Exc(Exception, IndexErrorMessage)) else Ok(content[0].text)
  }

  /** What one call of `summarize` returns or raises, with the calls it made. */
  datatype Run = Run(result: Result<string, Exc>, effects: seq<Effect>)

  /** The specification of `summarize(url)`. */
  function SummarizeSpec(rawUrl: string, net: Network, api: Service): Run {
    var load := LoadAttempt(Urls.Normalize(rawUrl), net);
    match load.result
    case Err(e) => Run(Err(e), load.effects)
    case Ok(doc) =>
      var request := RequestFor(Prompt.UserPromptFor(TitleOf(doc), TextOf(doc)));
      var effects := load.effects + [CreateMessage(request)];
      match api(request)
      case Err(e) => Run(Err(e), effects)
      case Ok(content) => Run(FirstText(content), effects)
  }

  /** `summarize`, on a `Website` object. */
  method Summarize(rawUrl: string, net: Network, api: Service) returns (r: Result<string, Exc>, ghost effects: seq<Effect>)
    ensures r == SummarizeSpec(rawUrl, net, api).result
    ensures effects == SummarizeSpec(rawUrl, net, api).effects
  {
    var website := new Website(rawUrl);
    var raised := website.Load(net);
    ghost var load := LoadAttempt(website.url, net);
    assert website.url == Urls.Normalize(rawUrl);
    effects := website.effects;
    assert effects == load.effects;
    if raised.Some? {
      return Err(raised.value), effects;
    }
    FetchProperties.LoadFailsOnlyIfBothFail(website.url, net);
    ghost var doc := load.result.value;
    assert load.processed == [doc];
    assert website.title == TitleOf(doc) && website.text == TextOf(doc);
    var prompt := Prompt.UserPromptFor(website.title, website.text);
    var request := RequestFor(prompt);
    effects := effects + [CreateMessage(request)];
    var response := api(request);
    match response {
      case Err(e) =>
        r := Err(e);
      case Ok(content) =>
        r := FirstText(content);
    }
  }

  /** The service is called only once the page was fetched, exactly once,
      with the fixed model, limit and system instruction and one user message
      holding the prompt built from the processed page. */
  lemma ServiceCalledOnceWithPrompt(rawUrl: string, net: Network, api: Service)
    ensures var load := LoadAttempt(Urls.Normalize(rawUrl), net);
      var run := SummarizeSpec(rawUrl, net, api);
      if load.result.Err? then
        run.result == Err(load.result.error) && run.effects == load.effects
      else
        var doc := load.result.value;
        && run.effects[..|run.effects| - 1] == load.effects
        && run.effects[|run.effects| - 1] == CreateMessage(Request(
             Model, 1000, SystemPrompt, [Message("user", Prompt.UserPromptFor(TitleOf(doc), TextOf(doc)))]))
  {
    var load := LoadAttempt(Urls.Normalize(rawUrl), net);
    var run := SummarizeSpec(rawUrl, net, api);
    if load.result.Ok? {
      assert run.effects[..|run.effects| - 1] == load.effects;
    }
  }

  /** An empty answer is an error, never an empty summary. */
  lemma EmptyResponseRaises(rawUrl: string, net: Network, api: Service)
    requires LoadAttempt(Urls.Normalize(rawUrl), net).result.Ok?
    requires var doc := LoadAttempt(Urls.Normalize(rawUrl), net).result.value;
      api(RequestFor(Prompt.UserPromptFor(TitleOf(doc), TextOf(doc)))) == Ok([])
    ensures SummarizeSpec(rawUrl, net, api).result == Err(Exc(Exception, IndexErrorMessage))
  {
  }

  /** The summary is the first segment of the answer, verbatim. */
  lemma SummaryIsFirstSegment(rawUrl: string, net: Network, api: Service)
    requires SummarizeSpec(rawUrl, net, api).result.Ok?
    ensures LoadAttempt(Urls.Normalize(rawUrl), net).result.Ok?
    ensures var doc := LoadAttempt(Urls.Normalize(rawUrl), net).result.value;
      var response := api(RequestFor(Prompt.UserPromptFor(TitleOf(doc), TextOf(doc))));
      && response.Ok? && |response.value| > 0
      && SummarizeSpec(rawUrl, net, api).result.value == response.value[0].text
  {
  }
}
