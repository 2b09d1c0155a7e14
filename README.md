# SummarizeSite, modelled in Dafny

SummarizeSite is a command-line script (`summarize2.py`). It takes a URL and
fetches the page, first with a plain HTTP GET and, if that raises, with a
headless browser. It then takes the page title and the cleaned body text,
builds one user prompt from them and sends it to a text-generation service.
It prints the first text segment of the answer.

This project models that script's own logic and proves what it promises:

- `Urls`: the URL normalisation at the start of `Website.__init__`.
- `Prompt`: the prompt that `user_prompt_for` builds.
- `Extractor`: the `Website` class. It has the fields `url`, `title` and
  `text`, and the methods `_fetch_static`, `_fetch_dynamic` (its
  `try`/`finally` around the browser) and `_process_content`.
- `FetchProperties`: the lemmas about the static-then-browser fallback.
- `Summarizer`: `summarize`, meaning the request it sends and how it reads
  the answer.
- `Cli`: `main`, meaning the argument-count guard, what is printed and the
  exit status.

The outside world is data (`Services`):

- a parsed `Document` (its `<title>` element and its body text, if any);
- the GET outcome for a URL;
- a `Browser` (whether the driver starts, what loading a URL gives, whether
  `quit()` succeeds);
- the service, as a function from a `Request` to a list of segments or an
  exception.

Every call to the outside world goes into a trace of `Effect`s. That trace is
how "the browser is tried only after the GET fails" and "`quit()` runs once"
are stated.

`PyRuntime` holds the few Python rules the script depends on:

- `str.startswith`;
- what `except Exception` catches: not KeyboardInterrupt or SystemExit, which
  sit directly under `BaseException`;
- how an f-string prints `None`.

Some behaviour follows the code rather than the prose description of the
system:

- In the prose, the fetch fails only when both strategies fail. In the code,
  an exception that is not an `Exception` (an interrupt) from the GET is not
  caught, so it propagates with no fallback.
- Starting the driver happens before the `try`. If it fails, there is no
  `quit()`.
- If `quit()` raises inside `finally`, its exception replaces any exception
  pending from navigation. So a page that was processed can still end in
  failure.
- `soup.title.string` is `None` when the `<title>` element does not hold
  exactly one string. So the stored title can be `None`, and the prompt then
  reads "titled None". The "No title found" fallback applies only when there
  is no `<title>` element at all.

## Model

| member | source | states |
|---|---|---|
| `Urls.Normalize` | summarize2.py:66-69 | the result always starts with `http://` or `https://`; it equals the input exactly when the input already has one of those schemes, and is `https://` + input otherwise; the input is always a suffix |
| `Urls.NormalizeIdempotent` | summarize2.py:67-69 | normalising twice gives the same URL as normalising once |
| `Urls.NormalizeNeverDoublesScheme` | summarize2.py:67-68 | the result starts with `https://https://` if and only if the input already did: the scheme is never added twice |
| `Urls.NormalizeUpperCaseScheme` | summarize2.py:67 | the scheme test is case-sensitive: `HTTP://example.com` becomes `https://HTTP://example.com` |
| `Prompt.UserPromptFor` | summarize2.py:121-136 | the prompt starts with the title lead, and with the full header (lead, rendered title, `". "`, one-line instruction ending in two newlines); it ends with the page text verbatim; its length is the header's plus the text's, so it is exactly header + text |
| `Prompt.TextOfPromptRoundTrip` | summarize2.py:131-136 | stripping the header from a built prompt gives back the page text unchanged |
| `Prompt.TextOfPromptInverse` | summarize2.py:131-136 | a string from which the header strips to `text` is exactly the prompt built from `text` |
| `Prompt.UserPromptForInjective` | summarize2.py:131-136 | for one title, different page texts give different prompts |
| `Prompt.PromptContainsTitle` | summarize2.py:131 | the rendered title occurs in the prompt |
| `Prompt.PromptContainsInstruction` | summarize2.py:132-135 | the instruction occurs in the prompt, immediately before the text: the prompt ends with instruction + text |
| `Prompt.NoneTitleRendered` | summarize2.py:131 | a title that is `None` appears in the prompt as "titled None. " |
| `Extractor.Website.constructor` | summarize2.py:66-69 | the stored url is the normalised input; nothing has been fetched or processed yet |
| `Extractor.Website.ProcessContent` | summarize2.py:109-118 | the title becomes the title element's string, or "No title found" when there is no title element; the text becomes the cleaned body text, or "" when there is no body; url and trace are unchanged |
| `Extractor.Website.FetchStatic` | summarize2.py:78-82 | records one GET of the stored url; on a page it processes that page, otherwise it raises the GET's exception and leaves the fields as they were |
| `Extractor.Website.FetchDynamic` | summarize2.py:84-107 | if the driver fails to start, raises that with no quit; otherwise records start, navigation and quit in that order, processes the page if it loaded, and raises quit's exception if quit failed, else navigation's exception if any |
| `Extractor.Website.Load` | summarize2.py:71-76 | the new state and the exception raised are those of `LoadAttempt`: static first, and the browser only after a caught static failure |
| `FetchProperties.LoadEffects` | summarize2.py:72-107 | the exact call trace in each case: just the GET; GET then a failed driver start; or GET, driver start, navigation, quit |
| `FetchProperties.StaticSuccessSkipsBrowser` | summarize2.py:72-76 | a successful GET is the result, its page is the only one processed, and no browser is started |
| `FetchProperties.BrowserOnlyAfterStaticFailure` | summarize2.py:72-76 | a browser is started if and only if the GET raised an exception that `except Exception` catches; the GET comes first and is made exactly once; at most one browser start |
| `FetchProperties.UncaughtStaticFailurePropagates` | summarize2.py:72-76 | an exception outside `Exception` from the GET propagates unchanged and nothing else is called |
| `FetchProperties.BrowserQuitOnce` | summarize2.py:93-107 | `quit()` is called exactly once when the driver started and never otherwise; when called, it is the last call and comes right after navigation |
| `FetchProperties.DynamicOutcomePropagates` | summarize2.py:98-107 | after a caught GET failure, the browser's outcome is the final one: a failed start or failed quit raises, otherwise the loaded page or its exception is the result; there is no further fallback |
| `FetchProperties.LoadFailsOnlyIfBothFail` | summarize2.py:72-76 | a failure means the GET failed and either that failure was not caught or the browser path failed too; a success means exactly one document, from the GET or from the browser, was processed |
| `FetchProperties.ProcessedAtMostOnce` | summarize2.py:72-107 | in every case at most one document is processed |
| `Summarizer.FirstText` | summarize2.py:167 | succeeds if and only if the response has a segment, and then gives the first segment's text; an empty response raises IndexError "list index out of range" |
| `Summarizer.Summarize` | summarize2.py:139-167 | building a `Website` and calling the service yields exactly the result and the call trace of `SummarizeSpec` |
| `Summarizer.ServiceCalledOnceWithPrompt` | summarize2.py:153-165 | if the fetch failed, its exception is raised and the service is not called; otherwise the service is called once, last, with model `claude-3-opus-20240229`, 1000 max tokens, the fixed system text and one user message holding the prompt built from the processed page |
| `Summarizer.EmptyResponseRaises` | summarize2.py:167 | an empty response list is an IndexError, never an empty summary |
| `Summarizer.SummaryIsFirstSegment` | summarize2.py:155-167 | a returned summary means the fetch succeeded and the service answered with at least one segment; the summary is that segment's text verbatim |
| `Cli.Execute` | summarize2.py:170-192 | the printed lines, the exit status and the call trace are those of `MainSpec` |
| `Cli.WrongArgCountExitsOne` | summarize2.py:178-184 | an argument vector of length other than 2 prints the usage lines and exits with 1 without any fetch or service call |
| `Cli.ExitZeroIffSummarized` | summarize2.py:186-189 | exit code 0 happens if and only if there is one argument and `summarize` returned; then only the summary is printed |
| `Cli.FailureExitsOne` | summarize2.py:187-192 | an ordinary exception from `summarize` prints "Error: " + its message and exits with 1 |
| `Cli.ExitCodeIsZeroOrOne` | summarize2.py:178-192 | every exit code `main` produces is 0 or 1 |
| `Cli.EmptyResponseExitsOne` | summarize2.py:153-192 | when the page loads but the service answers with no segments, the run prints "Error: list index out of range" and exits with 1 |
| `Cli.ExampleDomainRun` | summarize2.py:139-192 | end to end for `example.com`: a GET of `https://example.com`, a prompt from title "Example Domain" and the page text, one service call, then the answer is printed with exit code 0 |

## Left out

- The HTTP GET, the browser driver and its installation, and the five-second sleep are network and process I/O. Each is an outcome given as input: a parsed `Document` or an exception. There is no status-code check, so any HTTP response counts as a page, as in the source.
- HTML parsing, `find_all`/`decompose` of the irrelevant elements and `get_text(separator="\n", strip=True)` belong to the HTML library, whose code is not part of this model. The tag list is kept as the constant `IrrelevantTags`. The body text after cleaning is an opaque `Document.bodyText`. Because that library is abstract, `_process_content` never raises in the model.
- Extractor.Website.ProcessContent: the removal loop over `find_all` is not modelled, for the reason above. Its effect is folded into the document's body text.
- The browser launch options (headless, no GPU, no sandbox, no /dev/shm) are configuration strings passed to a foreign library. They have no effect on the model.
- The text-generation client is a function parameter (`Service`). Response segments are reduced to their text, so non-text segment kinds are not modelled.
- `load_dotenv`, the API-key environment variable and its placeholder are process environment. The model does not cover them.
- `print` and `sys.exit` are return values: the list of printed strings and the exit status. An exception that escapes `main` (a KeyboardInterrupt) ends as `Uncaught`. The interpreter's traceback and its exit status for that case are not modelled.
- The Python attributes `title` and `text` do not exist until `_process_content` runs. In the model they hold placeholders until then. The ghost `processed` sequence records whether they have been assigned.
