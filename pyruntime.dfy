/** The few pieces of Python's runtime behaviour that the script relies on. */
module PyRuntime {
  import opened Wrappers

  /** Where a raised object sits in Python's class hierarchy: below `Exception`
      (what `except Exception` catches), or directly below `BaseException`
      (KeyboardInterrupt, SystemExit), which `except Exception` lets through. */
  datatype ExcClass = Exception | BaseOnly

  /** A raised exception; `message` is what `str(e)` yields. */
  datatype Exc = Exc(cls: ExcClass, message: string)

  /** Whether a handler `except Exception:` catches `e`. */
  predicate CaughtByExceptException(e: Exc) {
    e.cls == Exception
  }

  /** `str(e)` of the IndexError raised by indexing an empty list. */
  const IndexErrorMessage := "list index out of range"

  /** Python's `s.startswith(prefix)`. */
  predicate StartsWith(s: string, prefix: string) {
    |prefix| <= |s| && s[..|prefix|] == prefix
  }

  /** Python's `s.endswith(suffix)`. */
  predicate EndsWith(s: string, suffix: string) {
    |suffix| <= |s| && s[|s| - |suffix|..] == suffix
  }

  /** Python's `t in s` for strings. */
  predicate Contains(s: string, t: string) {
    exists i :: 0 <= i <= |s| && StartsWith(s[i..], t)
  }

  /** How an f-string renders a value that is a `str` or `None`. */
  function Format(v: Option<string>): string {
    match v
    case Some(s) => s
    case None => "None"
  }

  lemma StartsWithConcat(a: string, b: string)
    ensures StartsWith(a + b, a)
  {
    assert (a + b)[..|a|] == a;
  }

  lemma EndsWithConcat(a: string, b: string)
    ensures EndsWith(a + b, b)
  {
    assert (a + b)[|a + b| - |b|..] == b;
  }

  /** A string occurs in any concatenation that has it in the middle. */
  lemma ContainsMiddle(a: string, t: string, b: string)
    ensures Contains(a + t + b, t)
  {
    var s := a + t + b;
    assert s[|a|..] == t + b;
    StartsWithConcat(t, b);
    assert 0 <= |a| <= |s| && StartsWith(s[|a|..], t);
  }

  /** `t` occurs in `a + t + c + d + e`, at position `|a|`. */
  lemma ContainsAfter(a: string, t: string, c: string, d: string, e: string)
    ensures Contains(a + t + c + d + e, t)
  {
    assert a + t + c + d + e == a + t + (c + d + e);
    ContainsMiddle(a, t, c + d + e);
  }

  /** `t` occurs in `a + t + e`, and `t + e` ends it. */
  lemma ContainsBefore(a: string, t: string, e: string)
    ensures Contains(a + t + e, t)
    ensures EndsWith(a + t + e, t + e)
  {
    ContainsMiddle(a, t, e);
    assert a + t + e == a + (t + e);
    EndsWithConcat(a, t + e);
  }

  /** A common first part cancels out of a prefix test. */
  lemma StartsWithCancel(a: string, u: string, q: string)
    ensures StartsWith(a + u, a + q) <==> StartsWith(u, q)
  {
    if StartsWith(u, q) {
      assert (a + u)[..|a + q|] == a + u[..|q|];
    }
    if StartsWith(a + u, a + q) {
      assert u[..|q|] == (a + u)[..|a + q|][|a|..];
    }
  }

  /** A string that starts with `a + b` starts with `a`. */
  lemma StartsWithShorter(u: string, a: string, b: string)
    ensures StartsWith(u, a + b) ==> StartsWith(u, a)
  {
    if StartsWith(u, a + b) {
      assert u[..|a|] == (a + b)[..|a|];
    }
  }

  /** `a + b + c + d + e` starts with `a + b + c`. */
  lemma StartsWithThree(a: string, b: string, c: string, d: string, e: string)
    ensures StartsWith(a + b + c + d + e, a + b + c)
  {
    assert a + b + c + d + e == (a + b + c) + (d + e);
    StartsWithConcat(a + b + c, d + e);
  }
}
