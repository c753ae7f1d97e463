/**
 * The string operations the template pipeline relies on: substring search
 * (`String.prototype.includes`), first/last character search, the global
 * replacement performed by `String.prototype.replace` with a literal `/g`
 * pattern, and decimal rendering of a counter inside a template literal.
 */
module Strings {
  import opened Wrappers

  /** `s` begins with `w`. */
  predicate StartsWith(s: string, w: string)
  {
    |w| <= |s| && s[..|w|] == w
  }

  /** `s.includes(w)`: `w` occurs somewhere in `s`. */
  predicate Contains(s: string, w: string)
    decreases |s|
  {
    StartsWith(s, w) || (|s| > 0 && Contains(s[1..], w))
  }

  /** No character of `r` occurs in `w`. */
  predicate Disjoint(r: string, w: string)
  {
    forall c :: c in r ==> c !in w
  }

  /**
   * `s.replace(new RegExp(pat, 'g'), rep)` for a pattern that matches the
   * literal text `pat`: scan left to right and replace every non-overlapping
   * occurrence, resuming the scan just after each replaced occurrence.
   */
  function ReplaceAll(s: string, pat: string, rep: string): string
    requires |pat| > 0
    decreases |s|
  {
    if |s| == 0 then []
    else if StartsWith(s, pat) then rep + ReplaceAll(s[|pat|..], pat, rep)
    else [s[0]] + ReplaceAll(s[1..], pat, rep)
  }

  /** Index of the first occurrence of `c` in `s`, if any. */
  function IndexOf(s: string, c: char): (r: Option<nat>)
    ensures r.None? <==> c !in s
    ensures r.Some? ==> r.value < |s| && s[r.value] == c && c !in s[..r.value]
    ensures r.Some? ==> forall k :: 0 <= k < r.value ==> s[k] != c
    decreases |s|
  {
    if |s| == 0 then None
    else if s[0] == c then Some(0)
    else match IndexOf(s[1..], c)
      case None => None
      case Some(i) =>
        assert s[..i + 1] == [s[0]] + s[1..][..i];
        Some(i + 1)
  }

  /** Index of the last occurrence of `c` in `s`, if any. */
  function LastIndexOf(s: string, c: char): (r: Option<nat>)
    ensures r.None? <==> c !in s
    ensures r.Some? ==> r.value < |s| && s[r.value] == c && c !in s[r.value + 1..]
    ensures r.Some? ==> forall k :: r.value < k < |s| ==> s[k] != c
    decreases |s|
  {
    if |s| == 0 then None
    else if s[|s| - 1] == c then Some(|s| - 1)
    else
      var r := LastIndexOf(s[..|s| - 1], c);
      if r.Some? then
        assert s[r.value + 1..] == s[..|s| - 1][r.value + 1..] + [s[|s| - 1]];
        r
      else
        None
  }

  /** The decimal digit for `d`. */
  function DigitChar(d: nat): char
    requires d < 10
  {
    "0123456789"[d]
  }

  /** Decimal rendering of a natural number, as a template literal `${n}` prints it. */
  function DecimalString(n: nat): (r: string)
    ensures |r| >= 1
    ensures n >= 10 ==> |r| >= 2
  {
    if n < 10 then [DigitChar(n)] else DecimalString(n / 10) + [DigitChar(n % 10)]
  }

  /** Distinct numbers print differently. */
  lemma {:induction false} DecimalStringInjective(m: nat, n: nat)
    requires DecimalString(m) == DecimalString(n)
    ensures m == n
    decreases m + n
  {
    if m < 10 && n < 10 {
      assert DecimalString(m)[0] == DecimalString(n)[0];
    } else if m >= 10 && n >= 10 {
      var a, b := DecimalString(m), DecimalString(n);
      assert a[..|a| - 1] == DecimalString(m / 10);
      assert b[..|b| - 1] == DecimalString(n / 10);
      assert a[|a| - 1] == DigitChar(m % 10) && b[|b| - 1] == DigitChar(n % 10);
      DecimalStringInjective(m / 10, n / 10);
    }
  }

  /** An occurrence in a suffix of `s` is an occurrence in `s`. */
  lemma {:induction false} ContainsInSuffix(s: string, k: nat, w: string)
    requires k <= |s|
    requires Contains(s[k..], w)
    ensures Contains(s, w)
    decreases k
  {
    if k > 0 {
      assert s[1..][k - 1..] == s[k..];
      ContainsInSuffix(s[1..], k - 1, w);
    }
  }

  /** An occurrence of `w` in `a + x` whose first letter is not in `a` lies inside `x`. */
  lemma {:induction false} ContainsPastPrefix(a: string, x: string, w: string)
    requires |w| > 0 && Disjoint(a, w)
    requires Contains(a + x, w)
    ensures Contains(x, w)
    decreases |a|
  {
    if |a| > 0 {
      assert a[0] in a && w[0] in w;
      HeadMismatch(a + x, w);
      assert (a + x)[1..] == a[1..] + x;
      ContainsPastPrefix(a[1..], x, w);
    } else {
      assert a + x == x;
    }
  }

  /**
   * When the replacement text shares no letter with `w`, a prefix `w` of the
   * rewritten text was already a prefix of the original text.
   */
  lemma {:induction false} ReplaceAllPrefix(t: string, pat: string, rep: string, w: string)
    requires |pat| > 0 && |rep| > 0 && Disjoint(rep, w)
    requires StartsWith(ReplaceAll(t, pat, rep), w)
    ensures StartsWith(t, w)
    decreases |t|
  {
    var out := ReplaceAll(t, pat, rep);
    if |w| > 0 && |t| > 0 {
      assert rep[0] in rep && w[0] in w && out[0] == w[0];
      assert out[0] != rep[0];
      assert out == [t[0]] + ReplaceAll(t[1..], pat, rep);
      assert StartsWith(ReplaceAll(t[1..], pat, rep), w[1..]) by {
        assert out[..|w|][1..] == ReplaceAll(t[1..], pat, rep)[..|w| - 1];
      }
      DisjointFromTail(rep, w);
      ReplaceAllPrefix(t[1..], pat, rep, w[1..]);
      assert t[..|w|] == [t[0]] + t[1..][..|w| - 1];
    }
  }

  /** With a replacement sharing no letter with `pat`, no occurrence of `pat` survives a global replace. */
  lemma {:induction false} ReplaceAllRemovesEvery(s: string, pat: string, rep: string)
    requires |pat| > 0 && |rep| > 0 && Disjoint(rep, pat)
    ensures !Contains(ReplaceAll(s, pat, rep), pat)
    decreases |s|
  {
    var out := ReplaceAll(s, pat, rep);
    if |s| == 0 {
      assert !StartsWith(out, pat);
    } else if StartsWith(s, pat) {
      ReplaceAllRemovesEvery(s[|pat|..], pat, rep);
      if Contains(out, pat) {
        ContainsPastPrefix(rep, ReplaceAll(s[|pat|..], pat, rep), pat);
        assert false;
      }
    } else {
      var tail := ReplaceAll(s[1..], pat, rep);
      assert out == [s[0]] + tail;
      assert out[1..] == tail;
      ReplaceAllRemovesEvery(s[1..], pat, rep);
      if Contains(out, pat) {
        ReplaceAllPrefix(s, pat, rep, pat);
        assert false;
      }
    }
  }

  /**
   * A global replace whose replacement shares no letter with `w` creates no
   * new occurrence of `w`: every occurrence in the result was in the input.
   */
  lemma {:induction false} ReplaceAllCreatesNone(s: string, pat: string, rep: string, w: string)
    requires |pat| > 0 && |rep| > 0 && |w| > 0 && Disjoint(rep, w)
    requires Contains(ReplaceAll(s, pat, rep), w)
    ensures Contains(s, w)
    decreases |s|
  {
    var out := ReplaceAll(s, pat, rep);
    if StartsWith(s, pat) && |s| > 0 {
      ContainsPastPrefix(rep, ReplaceAll(s[|pat|..], pat, rep), w);
      ReplaceAllCreatesNone(s[|pat|..], pat, rep, w);
      ContainsInSuffix(s, |pat|, w);
    } else if |s| > 0 {
      var tail := ReplaceAll(s[1..], pat, rep);
      assert out == [s[0]] + tail;
      assert out[1..] == tail;
      if StartsWith(out, w) {
        ReplaceAllPrefix(s, pat, rep, w);
      } else {
        ReplaceAllCreatesNone(s[1..], pat, rep, w);
      }
    }
  }

  /** Text without an occurrence of the pattern is left as it is. */
  lemma {:induction false} ReplaceAllAbsent(s: string, pat: string, rep: string)
    requires |pat| > 0 && !Contains(s, pat)
    ensures ReplaceAll(s, pat, rep) == s
    decreases |s|
  {
    if |s| > 0 {
      ReplaceAllAbsent(s[1..], pat, rep);
      assert [s[0]] + s[1..] == s;
    }
  }

  lemma HeadMismatch(s: string, w: string)
    requires |s| > 0 && |w| > 0 && s[0] != w[0]
    ensures !StartsWith(s, w)
  {
  }

  lemma DisjointFromTail(r: string, w: string)
    requires |w| > 0 && Disjoint(r, w)
    ensures Disjoint(r, w[1..])
  {
  }
}
