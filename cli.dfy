/** `main`: the argument-count guard, the call of `summarize`, and the
    mapping of its outcome to what is printed and the exit status. */
module Cli {
  import opened Wrappers
  import opened PyRuntime
  import opened Services
  import opened Extractor
  import opened Summarizer
  import Urls
  import Prompt
  import FetchProperties

  /** How the process ends: with an exit code, or with an exception that
      `except Exception` does not catch escaping `main`. */
  datatype Status = ExitCode(code: int) | Uncaught(error: Exc)

  /** One invocation: the strings passed to `print`, in order, how the
      process ends, and the calls made to the outside world. */
  datatype Session = Session(stdout: seq<string>, status: Status, effects: seq<Effect>)

  const UsageLines: seq<string> := [
    "Usage: python summarize.py <url>",
    "Examples:",
    "  python summarize.py cnn.com",
    "  python summarize.py https://www.bbc.com",
    "\nNote: Make sure you have set the ANTHROPIC_API_KEY environment variable"
  ]

  /** The specification of `main` for the argument vector `argv`
      (the script name first). */
  function MainSpec(argv: seq<string>, net: Network, api: Service): Session {
    if |argv| != 2 then Session(UsageLines, ExitCode(1), [])
    else
      var run := SummarizeSpec(argv[1], net, api);
      match run.result
      case Ok(summary) => Session([summary], ExitCode(0), run.effects)
      case Err(e) =>
        if CaughtByExceptException(e) then Session(["Error: " + e.message], ExitCode(1), run.effects)
        else Session([], Uncaught(e), run.effects)
  }

  /** `main`, with `print` as the lines it returns and `sys.exit` as the
      status it returns. */
  method Execute(argv: seq<string>, net: Network, api: Service)
    returns (stdout: seq<string>, status: Status, ghost effects: seq<Effect>)
    ensures stdout == MainSpec(argv, net, api).stdout
    ensures status == MainSpec(argv, net, api).status
    ensures effects == MainSpec(argv, net, api).effects
  {
    if |argv| != 2 {
      stdout := UsageLines;
      status := ExitCode(1);
      effects := [];
      return;
    }
    var url := argv[1];
    var summary;
    summary, effects := Summarize(url, net, api);
    match summary {
      case Ok(text) =>
        stdout, status := [text], ExitCode(0);
      case Err(e) =>
        if CaughtByExceptException(e) {
          stdout, status := ["Error: " + e.message], ExitCode(1);
        } else {
          stdout, status := [], Uncaught(e);
        }
    }
  }

  /** A wrong argument count prints the usage and exits with 1, before any
      fetch or service call. */
  lemma WrongArgCountExitsOne(argv: seq<string>, net: Network, api: Service)
    requires |argv| != 2
    ensures MainSpec(argv, net, api).status == ExitCode(1)
    ensures MainSpec(argv, net, api).stdout == UsageLines
    ensures MainSpec(argv, net, api).effects == []
  {
  }

  /** The process exits with 0 exactly when it got one argument and
      `summarize` returned, and then it prints just the summary. */
  lemma ExitZeroIffSummarized(argv: seq<string>, net: Network, api: Service)
    ensures MainSpec(argv, net, api).status == ExitCode(0)
        <==> |argv| == 2 && SummarizeSpec(argv[1], net, api).result.Ok?
    ensures MainSpec(argv, net, api).status == ExitCode(0) ==>
      MainSpec(argv, net, api).stdout == [SummarizeSpec(argv[1], net, api).result.value]
  {
  }

  /** Every ordinary exception from `summarize`, fetch or service alike,
      prints "Error: " and its message and exits with 1. */
  lemma FailureExitsOne(argv: seq<string>, net: Network, api: Service)
    requires |argv| == 2
    requires SummarizeSpec(argv[1], net, api).result.Err?
    requires CaughtByExceptException(SummarizeSpec(argv[1], net, api).result.error)
    ensures MainSpec(argv, net, api).status == ExitCode(1)
    ensures MainSpec(argv, net, api).stdout == ["Error: " + SummarizeSpec(argv[1], net, api).result.error.message]
  {
  }

  /** No exit code other than 0 and 1 is ever produced. */
  lemma ExitCodeIsZeroOrOne(argv: seq<string>, net: Network, api: Service)
    ensures MainSpec(argv, net, api).status.ExitCode? ==>
      MainSpec(argv, net, api).status.code == 0 || MainSpec(argv, net, api).status.code == 1
  {
  }

  /** An empty answer from the service ends as "Error: list index out of
      range" and exit code 1. */
  lemma EmptyResponseExitsOne(argv: seq<string>, net: Network, api: Service)
    requires |argv| == 2
    requires LoadAttempt(Urls.Normalize(argv[1]), net).result.Ok?
    requires var doc := LoadAttempt(Urls.Normalize(argv[1]), net).result.value;
      api(RequestFor(Prompt.UserPromptFor(TitleOf(doc), TextOf(doc)))) == Ok([])
    ensures MainSpec(argv, net, api).status == ExitCode(1)
    ensures MainSpec(argv, net, api).stdout == ["Error: " + IndexErrorMessage]
  {
    EmptyResponseRaises(argv[1], net, api);
  }

  /** A whole run for `example.com`: the secure scheme is added, the static
      fetch succeeds, the prompt is built from the page's title and text, and
      the service's first segment is printed with exit code 0. */
  lemma ExampleDomainRun(net: Network, api: Service, pageText: string, answer: string)
    requires net.fetch("https://example.com")
          == Ok(Document(Some(TitleTag(Some("Example Domain"))), Some(pageText)))
    requires api(RequestFor(Prompt.UserPromptFor(Some("Example Domain"), pageText))) == Ok([Segment(answer)])
    ensures MainSpec(["summarize.py", "example.com"], net, api)
         == Session([answer], ExitCode(0),
                    [HttpGet("https://example.com"),
                     CreateMessage(RequestFor(Prompt.UserPromptFor(Some("Example Domain"), pageText)))])
  {
    var raw := "example.com";
    assert raw[..|Urls.Http|][0] != Urls.Http[0];
    assert raw[..|Urls.Https|][0] != Urls.Https[0];
    var url := Urls.Normalize(raw);
    assert url == "https://example.com";
    var doc := Document(Some(TitleTag(Some("Example Domain"))), Some(pageText));
    FetchProperties.StaticSuccessSkipsBrowser(url, net);
    FetchProperties.LoadEffects(url, net);
    assert LoadAttempt(url, net).result == Ok(doc);
    assert TitleOf(doc) == Some("Example Domain") && TextOf(doc) == pageText;
  }
}
