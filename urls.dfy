/** URL normalisation done by `Website.__init__` before anything is fetched. */
module Urls {
  import opened PyRuntime

  const Http := "http://"
  const Https := "https://"

  /** The schemes the script recognises; the test is case-sensitive. */
  predicate HasScheme(u: string) {
    StartsWith(u, Http) || StartsWith(u, Https)
  }

  /** The URL the website is fetched from: the input itself when it already
      carries a recognised scheme, the input behind `https://` otherwise. */
  function Normalize(u: string): (r: string)
    ensures HasScheme(r)
    ensures EndsWith(r, u)
    ensures r == u || r == Https + u
    ensures r == u <==> HasScheme(u)
  {
    if HasScheme(u) then u
    else
      assert (Https + u)[..|Https|] == Https;
      Https + u
  }

  /** Normalising an already normalised URL changes nothing. */
  lemma NormalizeIdempotent(u: string)
    ensures Normalize(Normalize(u)) == Normalize(u)
  {
  }

  /** The secure scheme is never added twice: the result begins with two
      copies of it only when the input already did. */
  lemma NormalizeNeverDoublesScheme(u: string)
    ensures StartsWith(Normalize(u), Https + Https) <==> StartsWith(u, Https + Https)
  {
    if !HasScheme(u) {
      StartsWithCancel(Https, u, Https);
      StartsWithShorter(u, Https, Https);
    }
  }

  /** The scheme test is case-sensitive: an upper-case scheme is not
      recognised and gets the secure scheme prepended. */
  lemma NormalizeUpperCaseScheme()
    ensures Normalize("HTTP://example.com") == "https://HTTP://example.com"
  {
    var u := "HTTP://example.com";
    assert u[..|Http|][0] != Http[0];
    assert u[..|Https|][0] != Https[0];
  }
}
