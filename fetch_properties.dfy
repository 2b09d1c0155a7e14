/** What the fetch in `Website.__init__` promises, stated of `LoadAttempt`. */
module FetchProperties {
  import opened Wrappers
  import opened PyRuntime
  import opened Services
  import opened Extractor

  /** Whether the static fetch raised something the fallback catches. */
  predicate FallsBack(url: string, net: Network) {
    net.fetch(url).Err? && CaughtByExceptException(net.fetch(url).error)
  }

  /** The exact calls made, case by case: one GET; then, only on a caught
      failure, a driver start; and, only once the driver started, one
      navigation followed by one `quit()`. */
  lemma LoadEffects(url: string, net: Network)
    ensures !FallsBack(url, net) ==> LoadAttempt(url, net).effects == [HttpGet(url)]
    ensures FallsBack(url, net) && net.browser.launch.Fail? ==>
      LoadAttempt(url, net).effects == [HttpGet(url), LaunchBrowser]
    ensures FallsBack(url, net) && net.browser.launch.Pass? ==>
      LoadAttempt(url, net).effects == [HttpGet(url), LaunchBrowser, BrowserGet(url), QuitBrowser]
  {
  }

  /** A successful static fetch is the whole story: no browser is started and
      its page is the one processed. */
  lemma StaticSuccessSkipsBrowser(url: string, net: Network)
    requires net.fetch(url).Ok?
    ensures LoadAttempt(url, net).result == net.fetch(url)
    ensures LoadAttempt(url, net).processed == [net.fetch(url).value]
    ensures LaunchBrowser !in LoadAttempt(url, net).effects
  {
  }

  /** The browser is started exactly when the static fetch raised an
      exception that `except Exception` catches. */
  lemma BrowserOnlyAfterStaticFailure(url: string, net: Network)
    ensures LaunchBrowser in LoadAttempt(url, net).effects <==> FallsBack(url, net)
    ensures LoadAttempt(url, net).effects[0] == HttpGet(url)
    ensures Count(HttpGet(url), LoadAttempt(url, net).effects) == 1
    ensures Count(LaunchBrowser, LoadAttempt(url, net).effects) <= 1
  {
    LoadEffects(url, net);
    CountTrace(HttpGet(url), url, net);
    CountTrace(LaunchBrowser, url, net);
  }

  /** `Count` over each of the three traces `LoadEffects` lists. */
  lemma CountTrace(e: Effect, url: string, net: Network)
    ensures !FallsBack(url, net) ==>
      Count(e, LoadAttempt(url, net).effects) == Count(e, [HttpGet(url)])
    ensures FallsBack(url, net) && net.browser.launch.Fail? ==>
      Count(e, LoadAttempt(url, net).effects) == Count(e, [HttpGet(url)]) + Count(e, [LaunchBrowser])
    ensures FallsBack(url, net) && net.browser.launch.Pass? ==>
      Count(e, LoadAttempt(url, net).effects)
      == Count(e, [HttpGet(url)]) + Count(e, [LaunchBrowser]) + Count(e, [BrowserGet(url)]) + Count(e, [QuitBrowser])
  {
    LoadEffects(url, net);
    var fx := LoadAttempt(url, net).effects;
    CountCons(e, HttpGet(url), []);
    CountCons(e, LaunchBrowser, []);
    CountCons(e, BrowserGet(url), []);
    CountCons(e, QuitBrowser, []);
    if FallsBack(url, net) {
      if net.browser.launch.Pass? {
        assert fx == [HttpGet(url)] + ([LaunchBrowser] + ([BrowserGet(url)] + [QuitBrowser]));
        CountCons(e, HttpGet(url), [LaunchBrowser] + ([BrowserGet(url)] + [QuitBrowser]));
        CountCons(e, LaunchBrowser, [BrowserGet(url)] + [QuitBrowser]);
        CountCons(e, BrowserGet(url), [QuitBrowser]);
      } else {
        assert fx == [HttpGet(url)] + [LaunchBrowser];
        CountCons(e, HttpGet(url), [LaunchBrowser]);
      }
    }
  }

  /** An exception outside `Exception` (an interrupt, say) from the static
      fetch is not caught: it propagates and nothing else runs. */
  lemma UncaughtStaticFailurePropagates(url: string, net: Network)
    requires net.fetch(url).Err? && !CaughtByExceptException(net.fetch(url).error)
    ensures LoadAttempt(url, net).result == net.fetch(url)
    ensures LoadAttempt(url, net).effects == [HttpGet(url)]
  {
  }

  /** `quit()` runs once exactly when the driver started, and then it is the
      last call, right after the navigation. */
  lemma BrowserQuitOnce(url: string, net: Network)
    ensures Count(QuitBrowser, LoadAttempt(url, net).effects)
         == if FallsBack(url, net) && net.browser.launch.Pass? then 1 else 0
    ensures QuitBrowser in LoadAttempt(url, net).effects ==>
      var fx := LoadAttempt(url, net).effects;
      |fx| >= 2 && fx[|fx| - 1] == QuitBrowser && fx[|fx| - 2] == BrowserGet(url)
  {
    LoadEffects(url, net);
    CountTrace(QuitBrowser, url, net);
    CountCons(QuitBrowser, HttpGet(url), []);
    CountCons(QuitBrowser, LaunchBrowser, []);
    CountCons(QuitBrowser, BrowserGet(url), []);
    CountCons(QuitBrowser, QuitBrowser, []);
  }

  /** When the browser is used, its outcome is the outcome of the whole fetch:
      a failure is not followed by any further fallback, and an exception from
      `quit()` replaces one pending from the navigation. */
  lemma DynamicOutcomePropagates(url: string, net: Network)
    requires FallsBack(url, net)
    ensures net.browser.launch.Fail? ==> LoadAttempt(url, net).result == Err(net.browser.launch.error)
    ensures net.browser.launch.Pass? && net.browser.quit.Fail? ==>
      LoadAttempt(url, net).result == Err(net.browser.quit.error)
    ensures net.browser.launch.Pass? && net.browser.quit.Pass? ==>
      LoadAttempt(url, net).result == net.browser.load(url)
  {
  }

  /** The fetch fails only if the static fetch failed and then either the
      failure was not caught or the browser failed too; when it succeeds, one
      document, from one of the two strategies, was processed, once. */
  lemma LoadFailsOnlyIfBothFail(url: string, net: Network)
    ensures LoadAttempt(url, net).result.Err? ==>
      net.fetch(url).Err? &&
      (!CaughtByExceptException(net.fetch(url).error) || DynamicAttempt(url, net.browser).result.Err?)
    ensures LoadAttempt(url, net).result.Ok? ==>
      var doc := LoadAttempt(url, net).result.value;
      && LoadAttempt(url, net).processed == [doc]
      && (net.fetch(url) == Ok(doc) || (FallsBack(url, net) && net.browser.load(url) == Ok(doc)))
  {
  }

  /** Whatever happens, a document is processed at most once. */
  lemma ProcessedAtMostOnce(url: string, net: Network)
    ensures |LoadAttempt(url, net).processed| <= 1
  {
  }
}
