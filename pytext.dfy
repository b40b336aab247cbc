/**
 * The few Python `str` operations the agent and its tools rely on:
 * prefix and suffix tests, `removeprefix`, `removesuffix`, slicing `s[:n]`
 * and `strip()` with no argument. Strings are sequences of code points,
 * as Python's are.
 */
module PyText {

  /** `str.isspace()` for one character: the characters Python treats as whitespace
      (tab to carriage return, the four information separators, space, next line,
      no-break space and the Unicode space separators). */
  predicate IsSpace(c: char)
  {
    || ('\t' <= c <= '\r')
    || ('\U{001C}' <= c <= ' ')
    || c == '\U{0085}' || c == '\U{00A0}' || c == '\U{1680}'
    || ('\U{2000}' <= c <= '\U{200A}')
    || c == '\U{2028}' || c == '\U{2029}' || c == '\U{202F}' || c == '\U{205F}' || c == '\U{3000}'
  }

  /** Every character of `s` is whitespace. */
  predicate AllSpace(s: string)
  {
    forall k :: 0 <= k < |s| ==> IsSpace(s[k])
  }

  lemma AllSpaceCons(c: char, a: string)
    requires IsSpace(c) && AllSpace(a)
    ensures AllSpace([c] + a)
  {
    forall k | 0 <= k < |[c] + a| ensures IsSpace(([c] + a)[k]) {
      if k > 0 { assert ([c] + a)[k] == a[k - 1]; }
    }
  }

  lemma AllSpaceSnoc(a: string, c: char)
    requires AllSpace(a) && IsSpace(c)
    ensures AllSpace(a + [c])
  {
    forall k | 0 <= k < |a + [c]| ensures IsSpace((a + [c])[k]) {
      if k < |a| { assert (a + [c])[k] == a[k]; }
    }
  }

  /** `s.startswith(p)` */
  predicate StartsWith(s: string, p: string)
  {
    |p| <= |s| && s[..|p|] == p
  }

  /** `s.endswith(p)` */
  predicate EndsWith(s: string, p: string)
  {
    |p| <= |s| && s[|s| - |p|..] == p
  }

  /** `s.removeprefix(p)`: drops one copy of `p` from the front, if it is there. */
  function RemovePrefix(s: string, p: string): (r: string)
    ensures StartsWith(s, p) ==> p + r == s
    ensures !StartsWith(s, p) ==> r == s
  {
    if StartsWith(s, p) then s[|p|..] else s
  }

  /** `s.removesuffix(p)`: drops one copy of `p` from the end, if it is there. */
  function RemoveSuffix(s: string, p: string): (r: string)
    ensures EndsWith(s, p) ==> r + p == s
    ensures !EndsWith(s, p) ==> r == s
  {
    if EndsWith(s, p) then s[..|s| - |p|] else s
  }

  function Min(a: int, b: int): int
  {
    if a <= b then a else b
  }

  /** `s[:n]`: the first `n` characters, or all of `s` when it is shorter. */
  function Slice(s: string, n: nat): (r: string)
    ensures |r| == Min(|s|, n)
    ensures r == s[..|r|]
    ensures |s| <= n ==> r == s
  {
    if |s| <= n then s else s[..n]
  }

  /** A leading whitespace character joins the whitespace that lstrip removes after it. */
  lemma StripStartStep(s: string, r: string)
    requires s != [] && IsSpace(s[0])
    requires |r| <= |s| - 1 && r == s[1..][|s| - 1 - |r|..] && AllSpace(s[1..][..|s| - 1 - |r|])
    ensures r == s[|s| - |r|..] && AllSpace(s[..|s| - |r|])
  {
    assert s[..|s| - |r|] == [s[0]] + s[1..][..|s| - 1 - |r|];
    AllSpaceCons(s[0], s[1..][..|s| - 1 - |r|]);
  }

  /** A trailing whitespace character joins the whitespace that rstrip removes before it. */
  lemma StripEndStep(s: string, r: string)
    requires s != [] && IsSpace(s[|s| - 1])
    requires |r| <= |s| - 1 && r == s[..|s| - 1][..|r|] && AllSpace(s[..|s| - 1][|r|..])
    ensures r == s[..|r|] && AllSpace(s[|r|..])
  {
    assert s[|r|..] == s[..|s| - 1][|r|..] + [s[|s| - 1]];
    AllSpaceSnoc(s[..|s| - 1][|r|..], s[|s| - 1]);
  }

  /** `s.lstrip()`: drops the leading whitespace. */
  function StripStart(s: string): (r: string)
    ensures |r| <= |s| && r == s[|s| - |r|..]
    ensures AllSpace(s[..|s| - |r|])
    ensures r == [] || !IsSpace(r[0])
  {
    if s != [] && IsSpace(s[0]) then
      var r := StripStart(s[1..]);
      StripStartStep(s, r);
      r
    else
      s
  }

  /** `s.rstrip()`: drops the trailing whitespace. */
  function StripEnd(s: string): (r: string)
    ensures |r| <= |s| && r == s[..|r|]
    ensures AllSpace(s[|r|..])
    ensures r == [] || !IsSpace(r[|r| - 1])
  {
    if s != [] && IsSpace(s[|s| - 1]) then
      var r := StripEnd(s[..|s| - 1]);
      StripEndStep(s, r);
      r
    else
      s
  }

  /** `r` is `s` with the whitespace-only margins `s[..i]` and `s[i + |r|..]` cut away. */
  ghost predicate TrimmedAt(s: string, r: string, i: int)
  {
    0 <= i && i + |r| <= |s| && r == s[i..i + |r|] && AllSpace(s[..i]) && AllSpace(s[i + |r|..])
  }

  /** Cutting a whitespace-only head off s (leaving t) and a whitespace-only tail off t
      (leaving r) trims s down to r; r is empty exactly when s is all whitespace, provided
      t does not start with whitespace. */
  lemma TrimInTwoSteps(s: string, t: string, r: string)
    requires |t| <= |s| && t == s[|s| - |t|..] && AllSpace(s[..|s| - |t|])
    requires |r| <= |t| && r == t[..|r|] && AllSpace(t[|r|..])
    requires t == [] || !IsSpace(t[0])
    ensures TrimmedAt(s, r, |s| - |t|)
    ensures r == [] <==> AllSpace(s)
  {
    var i := |s| - |t|;
    assert s[i..i + |r|] == r;
    assert s[i + |r|..] == t[|r|..];
    if r == [] {
      assert t[|r|..] == t;
      if t != [] {
        assert false;
      }
      forall k | 0 <= k < |s| ensures IsSpace(s[k]) {
        assert s[..i][k] == s[k];
      }
    }
  }

  /** `s.strip()`: drops leading and trailing whitespace. */
  function Strip(s: string): (r: string)
    ensures r == [] || (!IsSpace(r[0]) && !IsSpace(r[|r| - 1]))
    ensures exists i :: TrimmedAt(s, r, i)
    ensures r == [] <==> AllSpace(s)
  {
    TrimInTwoSteps(s, StripStart(s), StripEnd(StripStart(s)));
    StripEnd(StripStart(s))
  }

  /** A string with no surrounding whitespace is left as it is by `strip()`. */
  lemma StripKeepsTrimmed(s: string)
    requires s != [] && !IsSpace(s[0]) && !IsSpace(s[|s| - 1])
    ensures Strip(s) == s
  {
    assert StripStart(s) == s;
    assert StripEnd(s) == s;
  }

  /** Trimming is unique: two pieces of s that are each cut out by whitespace-only margins
      and that neither start nor end with whitespace are the same piece. */
  lemma TrimmedUnique(s: string, r: string, i: int, x: string, j: int)
    requires TrimmedAt(s, r, i) && TrimmedAt(s, x, j)
    requires r != [] && !IsSpace(r[0]) && !IsSpace(r[|r| - 1])
    requires x != [] && !IsSpace(x[0]) && !IsSpace(x[|x| - 1])
    ensures r == x
  {
    assert forall k :: 0 <= k < i ==> IsSpace(s[k]);
    assert forall k :: 0 <= k < j ==> IsSpace(s[k]);
    assert forall k :: i + |r| <= k < |s| ==> IsSpace(s[k]);
    assert forall k :: j + |x| <= k < |s| ==> IsSpace(s[k]);
    assert s[i] == r[0] && s[i + |r| - 1] == r[|r| - 1];
    assert s[j] == x[0] && s[j + |x| - 1] == x[|x| - 1];
  }

  /** `strip()` of a piece with whitespace-only margins a and b, where the piece neither
      starts nor ends with whitespace, is that piece. */
  lemma StripPadded(a: string, x: string, b: string)
    requires AllSpace(a) && AllSpace(b)
    requires x != [] && !IsSpace(x[0]) && !IsSpace(x[|x| - 1])
    ensures Strip(a + x + b) == x
  {
    var s := a + x + b;
    assert s[..|a|] == a;
    assert s[|a|..|a| + |x|] == x;
    assert s[|a| + |x|..] == b;
    assert TrimmedAt(s, x, |a|);
    assert s[|a|] == x[0];
    var r := Strip(s);
    var i :| TrimmedAt(s, r, i);
    TrimmedUnique(s, r, i, x, |a|);
  }
}
