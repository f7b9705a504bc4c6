/**
  The pieces of Python's string semantics the plugin relies on: `startswith`,
  `endswith`, slicing with possibly negative bounds, `os.path.basename` with the
  separator fixed to '/', and `str()` of a non-negative integer.
 */
module PyStr {

  /** The path separator (`os.path.sep` on a POSIX host). */
  const SepChar: char := '/'
  const PathSep: string := [SepChar]

  function Min(a: int, b: int): int { if a <= b then a else b }
  function Max(a: int, b: int): int { if a >= b then a else b }

  /** `s.startswith(p)` */
  predicate StartsWith(s: string, p: string) {
    |p| <= |s| && s[..|p|] == p
  }

  /** `s.endswith(p)` */
  predicate EndsWith(s: string, p: string) {
    |p| <= |s| && s[|s| - |p|..] == p
  }

  /** `s` starts with `p` exactly when `s` is `p` followed by the rest of `s`. */
  lemma StartsWithIsPrefix(s: string, p: string)
    ensures StartsWith(s, p) <==> |p| <= |s| && s == p + s[|p|..]
  {
    if |p| <= |s| {
      assert s == s[..|p|] + s[|p|..];
      assert (p + s[|p|..])[..|p|] == p;
    }
  }

  /** `s` ends with `p` exactly when `s` is the rest of `s` followed by `p`. */
  lemma EndsWithIsSuffix(s: string, p: string)
    ensures EndsWith(s, p) <==> |p| <= |s| && s == s[..|s| - |p|] + p
  {
    if |p| <= |s| {
      assert s == s[..|s| - |p|] + s[|s| - |p|..];
      assert (s[..|s| - |p|] + p)[|s| - |p|..] == p;
    }
  }

  /** `s` occurs as a contiguous piece of `t`. */
  ghost predicate IsInfix(s: string, t: string) {
    exists i :: 0 <= i <= |t| && StartsWith(t[i..], s)
  }

  /** Python's normalisation of a slice bound `k` for a sequence of length `n`:
      a negative bound counts from the end, and the result is clipped to [0, n]. */
  function ClipIndex(k: int, n: nat): (r: nat)
    ensures r <= n
  {
    if k < 0 then Max(0, n + k) else Min(k, n)
  }

  /** `s[:k]` */
  function SliceTo(s: string, k: int): (r: string)
    ensures StartsWith(s, r)
    ensures 0 <= k ==> |r| == Min(k, |s|)
    ensures k < 0 ==> |r| == Max(0, |s| + k)
  {
    s[..ClipIndex(k, |s|)]
  }

  /** `s[k:]` */
  function SliceFrom(s: string, k: int): (r: string)
    ensures EndsWith(s, r)
    ensures 0 <= k ==> |r| == Max(0, |s| - k)
    ensures k < 0 ==> |r| == Min(-k, |s|)
  {
    s[ClipIndex(k, |s|)..]
  }

  /** Prepending text does not change how a string long enough to hold `p` ends. */
  lemma EndsWithAfterPrepend(a: string, s: string, p: string)
    requires |p| <= |s|
    ensures EndsWith(a + s, p) <==> EndsWith(s, p)
  {
    assert (a + s)[|a + s| - |p|..] == s[|s| - |p|..];
  }

  /** `os.path.basename(p)`: everything after the last separator (all of `p`
      when it has none, and "" when `p` ends with one). */
  function Basename(p: string): (r: string)
    ensures EndsWith(p, r)
    ensures SepChar !in r
    ensures |r| < |p| ==> p[|p| - |r| - 1] == SepChar
  {
    if |p| == 0 then ""
    else if p[|p| - 1] == SepChar then ""
    else Basename(p[..|p| - 1]) + [p[|p| - 1]]
  }

  /** The basename of `dir + "/" + name` is `name` whenever `name` has no separator. */
  lemma {:induction false} BasenameOfJoin(dir: string, name: string)
    requires SepChar !in name
    ensures Basename(dir + PathSep + name) == name
  {
    var p := dir + PathSep + name;
    if |name| > 0 {
      var init := name[..|name| - 1];
      assert p[..|p| - 1] == dir + PathSep + init;
      BasenameOfJoin(dir, init);
      assert name == init + [name[|name| - 1]];
    }
  }

  predicate IsDigit(c: char) { '0' <= c <= '9' }

  predicate AllDigits(s: string) {
    forall i :: 0 <= i < |s| ==> IsDigit(s[i])
  }

  function DigitChar(d: nat): (c: char)
    requires d < 10
    ensures IsDigit(c)
  {
    ('0' as int + d) as char
  }

  /** `str(n)` for a non-negative integer: its decimal digits, most significant first. */
  function NatToString(n: nat): (r: string)
    ensures |r| > 0
    ensures AllDigits(r)
    ensures |r| > 1 ==> r[0] != '0'
    decreases n
  {
    if n < 10 then [DigitChar(n)] else NatToString(n / 10) + [DigitChar(n % 10)]
  }

  /** `int(s)` for a string of decimal digits. */
  function DigitsValue(s: string): nat
    requires AllDigits(s)
  {
    if |s| == 0 then 0 else DigitsValue(s[..|s| - 1]) * 10 + (s[|s| - 1] as int - '0' as int)
  }

  /** `int(str(n)) == n`: the decimal rendering of a group number loses nothing. */
  lemma {:induction false} DigitsRoundTrip(n: nat)
    ensures DigitsValue(NatToString(n)) == n
    decreases n
  {
    if n >= 10 {
      var s := NatToString(n);
      assert s[..|s| - 1] == NatToString(n / 10);
      DigitsRoundTrip(n / 10);
    }
  }

  /** Being an infix is transitive. */
  lemma InfixTransitive(a: string, b: string, c: string)
    requires IsInfix(a, b) && IsInfix(b, c)
    ensures IsInfix(a, c)
  {
    var i :| 0 <= i <= |b| && StartsWith(b[i..], a);
    var j :| 0 <= j <= |c| && StartsWith(c[j..], b);
    assert c[j + i..][..|a|] == b[i..][..|a|];
    assert StartsWith(c[j + i..], a);
  }

  /** A prefix and a suffix are infixes. */
  lemma PrefixIsInfix(a: string, b: string)
    requires StartsWith(b, a)
    ensures IsInfix(a, b)
  {
    assert b[0..] == b;
  }

  lemma SuffixIsInfix(a: string, b: string)
    requires EndsWith(b, a)
    ensures IsInfix(a, b)
  {
    var i := |b| - |a|;
    assert b[i..][..|a|] == a;
  }
}
