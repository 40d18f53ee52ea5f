/**
 * The JavaScript string operations the engine relies on, over strings of
 * code points: `trim`, `toLowerCase` (as far as it matters here), `substring`,
 * `includes`, global placeholder replacement, `join`, and the case folding
 * that a case-insensitive (`/i`) regular expression applies.
 */
module JsText {
  import opened Outcomes

  /** ECMAScript WhiteSpace and LineTerminator code points: what `trim` removes and `\s` matches. */
  predicate IsSpace(c: char) {
    c == '\t' || c == '\n' || c == '\U{000B}' || c == '\U{000C}' || c == '\r' || c == ' '
    || c == '\U{00A0}' || c == '\U{1680}' || ('\U{2000}' <= c <= '\U{200A}')
    || c == '\U{2028}' || c == '\U{2029}' || c == '\U{202F}' || c == '\U{205F}'
    || c == '\U{3000}' || c == '\U{FEFF}'
  }

  predicate AllSpace(s: string) {
    forall i :: 0 <= i < |s| ==> IsSpace(s[i])
  }

  /** A string that `trim` leaves alone: no white space at either end. */
  predicate IsTrimmed(s: string) {
    s == [] || (!IsSpace(s[0]) && !IsSpace(s[|s| - 1]))
  }

  /** The first position at or after `i` that does not hold white space (`|s|` when there is none). */
  function SkipSpace(s: string, i: nat): (j: nat)
    requires i <= |s|
    ensures i <= j <= |s|
    ensures j < |s| ==> !IsSpace(s[j])
    decreases |s| - i
  {
    if i < |s| && IsSpace(s[i]) then SkipSpace(s, i + 1) else i
  }

  /** The position after the last character before `j` that is not white space (0 when there is none). */
  function SkipSpaceBack(s: string, j: nat): (i: nat)
    requires j <= |s|
    ensures i <= j
    ensures i > 0 ==> !IsSpace(s[i - 1])
    decreases j
  {
    if j > 0 && IsSpace(s[j - 1]) then SkipSpaceBack(s, j - 1) else j
  }

  /** Everything `SkipSpace` passes over is white space. */
  lemma {:induction false} SkipSpaceOverSpace(s: string, i: nat)
    requires i <= |s|
    ensures forall k :: i <= k < SkipSpace(s, i) ==> IsSpace(s[k])
    decreases |s| - i
  {
    if i < |s| && IsSpace(s[i]) {
      SkipSpaceOverSpace(s, i + 1);
    }
  }

  /** Everything `SkipSpaceBack` passes over is white space. */
  lemma {:induction false} SkipSpaceBackOverSpace(s: string, j: nat)
    requires j <= |s|
    ensures forall k :: SkipSpaceBack(s, j) <= k < j ==> IsSpace(s[k])
    decreases j
  {
    if j > 0 && IsSpace(s[j - 1]) {
      SkipSpaceBackOverSpace(s, j - 1);
    }
  }

  /** `String.prototype.trimStart`: the suffix of `s` after its maximal white-space prefix. */
  function TrimStart(s: string): (r: string)
    ensures |r| <= |s|
    ensures r == [] || !IsSpace(r[0])
  {
    s[SkipSpace(s, 0)..]
  }

  /** `String.prototype.trimEnd`: the prefix of `s` before its maximal white-space suffix. */
  function TrimEnd(s: string): (r: string)
    ensures |r| <= |s|
    ensures r == [] || !IsSpace(r[|r| - 1])
  {
    s[..SkipSpaceBack(s, |s|)]
  }

  /** `String.prototype.trim`. */
  function Trim(s: string): (r: string)
    ensures IsTrimmed(r) && |r| <= |s|
  {
    var t := TrimStart(s);
    var r := TrimEnd(t);
    assert r != [] ==> r[0] == t[0];
    r
  }

  /** `trimStart` removes a white-space prefix and nothing else. */
  lemma TrimStartRemovesSpace(s: string)
    ensures s == s[..|s| - |TrimStart(s)|] + TrimStart(s)
    ensures AllSpace(s[..|s| - |TrimStart(s)|])
  {
    SkipSpaceOverSpace(s, 0);
    assert s == s[..SkipSpace(s, 0)] + s[SkipSpace(s, 0)..];
  }

  /** `trimEnd` removes a white-space suffix and nothing else. */
  lemma TrimEndRemovesSpace(s: string)
    ensures s == TrimEnd(s) + s[|TrimEnd(s)|..]
    ensures AllSpace(s[|TrimEnd(s)|..])
  {
    SkipSpaceBackOverSpace(s, |s|);
    assert s == s[..SkipSpaceBack(s, |s|)] + s[SkipSpaceBack(s, |s|)..];
  }

  /** Scanning forwards, a stretch of text before `y` does not change where `y`'s white space ends. */
  lemma {:induction false} SkipSpaceAfter(w: string, y: string, k: nat)
    requires k <= |y|
    ensures SkipSpace(w + y, |w| + k) == |w| + SkipSpace(y, k)
    decreases |y| - k
  {
    if k < |y| {
      assert (w + y)[|w| + k] == y[k];
      if IsSpace(y[k]) {
        SkipSpaceAfter(w, y, k + 1);
      }
    }
  }

  /** Scanning forwards from inside a white-space prefix `w` passes all of it. */
  lemma {:induction false} SkipSpaceThrough(w: string, y: string, i: nat)
    requires AllSpace(w) && i <= |w|
    ensures SkipSpace(w + y, i) == |w| + SkipSpace(y, 0)
    decreases |w| - i
  {
    if i < |w| {
      assert (w + y)[i] == w[i];
      SkipSpaceThrough(w, y, i + 1);
    } else {
      SkipSpaceAfter(w, y, 0);
    }
  }

  /** Scanning backwards inside `y`, the text after `y` does not matter. */
  lemma {:induction false} SkipSpaceBackBefore(y: string, w: string, j: nat)
    requires j <= |y|
    ensures SkipSpaceBack(y + w, j) == SkipSpaceBack(y, j)
    decreases j
  {
    if j > 0 {
      assert (y + w)[j - 1] == y[j - 1];
      if IsSpace(y[j - 1]) {
        SkipSpaceBackBefore(y, w, j - 1);
      }
    }
  }

  /** Scanning backwards from inside a white-space suffix `w` passes all of it. */
  lemma {:induction false} SkipSpaceBackThrough(y: string, w: string, k: nat)
    requires AllSpace(w) && k <= |w|
    ensures SkipSpaceBack(y + w, |y| + k) == SkipSpaceBack(y, |y|)
    decreases k
  {
    if k > 0 {
      assert (y + w)[|y| + k - 1] == w[k - 1];
      SkipSpaceBackThrough(y, w, k - 1);
    } else {
      SkipSpaceBackBefore(y, w, |y|);
    }
  }

  lemma TrimStartSkipsSpaces(w: string, y: string)
    requires AllSpace(w)
    ensures TrimStart(w + y) == TrimStart(y)
  {
    SkipSpaceThrough(w, y, 0);
    assert (w + y)[|w| + SkipSpace(y, 0)..] == y[SkipSpace(y, 0)..];
  }

  lemma TrimEndSkipsSpaces(y: string, w: string)
    requires AllSpace(w)
    ensures TrimEnd(y + w) == TrimEnd(y)
  {
    SkipSpaceBackThrough(y, w, |w|);
    assert (y + w)[..SkipSpaceBack(y, |y|)] == y[..SkipSpaceBack(y, |y|)];
  }

  /** `trimStart` leaves a string alone when it does not start with white space. */
  lemma TrimStartKeeps(s: string)
    requires s == [] || !IsSpace(s[0])
    ensures TrimStart(s) == s
  {
    assert SkipSpace(s, 0) == 0;
  }

  /** `trimEnd` leaves a string alone when it does not end with white space. */
  lemma TrimEndKeeps(s: string)
    requires s == [] || !IsSpace(s[|s| - 1])
    ensures TrimEnd(s) == s
  {
    assert SkipSpaceBack(s, |s|) == |s|;
  }

  /** Trimming removes exactly the white space around a trimmed core. */
  lemma TrimPadded(w: string, x: string, w': string)
    requires AllSpace(w) && AllSpace(w') && IsTrimmed(x)
    ensures Trim(w + x + w') == x
  {
    assert w + x + w' == w + (x + w');
    TrimStartSkipsSpaces(w, x + w');
    if x == [] {
      assert x + w' == w' + [];
      TrimStartSkipsSpaces(w', []);
      TrimStartKeeps([]);
      TrimEndKeeps([]);
    } else {
      assert (x + w')[0] == x[0];
      TrimStartKeeps(x + w');
      TrimEndSkipsSpaces(x, w');
      TrimEndKeeps(x);
    }
  }

  /** A trimmed string is a fixed point of `trim`, so `trim` is idempotent. */
  lemma TrimIdempotent(s: string)
    ensures Trim(Trim(s)) == Trim(s)
  {
    var t := Trim(s);
    assert [] + t + [] == t;
    TrimPadded([], t, []);
  }

  /** ASCII `toLowerCase`; other code points are kept (see the README for why this decides the same language codes). */
  function LowerChar(c: char): (d: char)
    ensures 'A' <= c <= 'Z' ==> d as int == c as int + 32
    ensures !('A' <= c <= 'Z') ==> d == c
  {
    if 'A' <= c <= 'Z' then (c as int + 32) as char else c
  }

  function Lower(s: string): (r: string)
    ensures |r| == |s| && forall i :: 0 <= i < |s| ==> r[i] == LowerChar(s[i])
  {
    seq(|s|, i requires 0 <= i < |s| => LowerChar(s[i]))
  }

  /**
   * The canonical character a case-insensitive regular expression compares:
   * upper case for ASCII letters and for basic Cyrillic letters.
   */
  function Fold(c: char): (d: char)
    ensures 'a' <= c <= 'z' ==> d as int == c as int - 32
    ensures 'A' <= c <= 'Z' ==> d == c
    ensures c < '\U{0400}' && !('a' <= c <= 'z') ==> d == c
    ensures '\U{0400}' <= c <= '\U{045F}' ==> '\U{0400}' <= d <= '\U{042F}'
    ensures '\U{0400}' <= c <= '\U{042F}' || c > '\U{045F}' ==> d == c
  {
    if 'a' <= c <= 'z' then (c as int - 32) as char
    else if '\U{0430}' <= c <= '\U{044F}' then (c as int - 0x20) as char
    else if '\U{0450}' <= c <= '\U{045F}' then (c as int - 0x50) as char
    else c
  }

  predicate SameChar(a: char, b: char, ignoreCase: bool) {
    if ignoreCase then Fold(a) == Fold(b) else a == b
  }

  /** `pat` occurs in `s` starting at position `p`. */
  predicate MatchAt(s: string, p: nat, pat: string, ignoreCase: bool) {
    p + |pat| <= |s| && forall j :: 0 <= j < |pat| ==> SameChar(s[p + j], pat[j], ignoreCase)
  }

  /** The leftmost occurrence of `pat` in `s` at or after `from` (`indexOf`, or a literal regex search). */
  function IndexOf(s: string, pat: string, from: nat, ignoreCase: bool): (r: Option<nat>)
    ensures r.Some? ==> from <= r.value && r.value + |pat| <= |s|
    decreases |s| - from
  {
    if from + |pat| > |s| then None
    else if MatchAt(s, from, pat, ignoreCase) then Some(from)
    else IndexOf(s, pat, from + 1, ignoreCase)
  }

  /** What `IndexOf` finds is an occurrence, and no occurrence lies between `from` and it. */
  lemma {:induction false} IndexOfLeftmost(s: string, pat: string, from: nat, ignoreCase: bool)
    ensures IndexOf(s, pat, from, ignoreCase).Some? ==> MatchAt(s, IndexOf(s, pat, from, ignoreCase).value, pat, ignoreCase)
    ensures IndexOf(s, pat, from, ignoreCase).Some? ==>
      forall q :: from <= q < IndexOf(s, pat, from, ignoreCase).value ==> !MatchAt(s, q, pat, ignoreCase)
    decreases |s| - from
  {
    if from + |pat| <= |s| && !MatchAt(s, from, pat, ignoreCase) {
      IndexOfLeftmost(s, pat, from + 1, ignoreCase);
    }
  }

  /** `IndexOf` finds nothing exactly when there is no occurrence at or after `from`. */
  lemma {:induction false} IndexOfNone(s: string, pat: string, from: nat, ignoreCase: bool)
    ensures IndexOf(s, pat, from, ignoreCase).None? <==> forall q :: from <= q ==> !MatchAt(s, q, pat, ignoreCase)
    decreases |s| - from
  {
    if from + |pat| > |s| {
      assert forall q :: from <= q ==> !MatchAt(s, q, pat, ignoreCase);
    } else if !MatchAt(s, from, pat, ignoreCase) {
      IndexOfNone(s, pat, from + 1, ignoreCase);
    }
  }

  /** `String.prototype.includes`. */
  predicate Contains(s: string, pat: string) {
    IndexOf(s, pat, 0, false).Some?
  }

  /** `substring(0, n)` for a non-negative `n`. */
  function Prefix(s: string, n: nat): (r: string)
    ensures |r| == if n < |s| then n else |s|
    ensures r == s[..|r|]
  {
    if n < |s| then s[..n] else s
  }

  /**
   * `s.replace(/pat/g, rep)` for a pattern without special characters and a
   * replacement without `$` patterns: every occurrence, scanning left to
   * right, is replaced, and replaced text is not scanned again.
   */
  function ReplaceAll(s: string, pat: string, rep: string): string
    requires pat != []
    decreases |s|
  {
    if s == [] then []
    else if |pat| <= |s| && s[..|pat|] == pat then rep + ReplaceAll(s[|pat|..], pat, rep)
    else [s[0]] + ReplaceAll(s[1..], pat, rep)
  }

  lemma PrefixMatches(s: string, pat: string)
    requires |pat| <= |s| && s[..|pat|] == pat
    ensures MatchAt(s, 0, pat, false)
  {
    assert forall j :: 0 <= j < |pat| ==> s[0 + j] == s[..|pat|][j];
  }

  /** Text without an occurrence of the pattern is left as it is. */
  lemma {:induction false} ReplaceAllWithoutMatch(s: string, pat: string, rep: string)
    requires pat != [] && forall q :: !MatchAt(s, q, pat, false)
    ensures ReplaceAll(s, pat, rep) == s
    decreases |s|
  {
    if s != [] {
      if |pat| <= |s| && s[..|pat|] == pat {
        PrefixMatches(s, pat);
        assert false;
      } else {
        forall q: nat | MatchAt(s[1..], q, pat, false)
          ensures false
        {
          assert MatchAt(s, q + 1, pat, false);
        }
        ReplaceAllWithoutMatch(s[1..], pat, rep);
      }
    }
  }

  /** An occurrence after a prefix is an occurrence in the rest of the text. */
  lemma MatchAtShift(a: string, t: string, k: nat, pat: string, ignoreCase: bool)
    ensures MatchAt(a + t, |a| + k, pat, ignoreCase) == MatchAt(t, k, pat, ignoreCase)
  {
    if k + |pat| <= |t| {
      forall j | 0 <= j < |pat|
        ensures SameChar((a + t)[|a| + k + j], pat[j], ignoreCase) == SameChar(t[k + j], pat[j], ignoreCase)
      {
        assert (a + t)[|a| + k + j] == t[k + j];
      }
    }
  }

  /** Dropping the first character of `x` keeps "no occurrence starts inside `x`". */
  lemma NoMatchInTail(x: string, y: string, pat: string)
    requires x != []
    requires forall q: nat :: q < |x| ==> !MatchAt(x + y, q, pat, false)
    ensures forall q: nat :: q < |x[1..]| ==> !MatchAt(x[1..] + y, q, pat, false)
  {
    assert [x[0]] + (x[1..] + y) == x + y;
    forall q: nat | q < |x[1..]|
      ensures !MatchAt(x[1..] + y, q, pat, false)
    {
      MatchAtShift([x[0]], x[1..] + y, q, pat, false);
    }
  }

  /** A prefix in which no occurrence starts is copied as it is, and the scan goes on after it. */
  lemma {:induction false} ReplaceAllSkip(x: string, y: string, pat: string, rep: string)
    requires pat != []
    requires forall q: nat :: q < |x| ==> !MatchAt(x + y, q, pat, false)
    ensures ReplaceAll(x + y, pat, rep) == x + ReplaceAll(y, pat, rep)
    decreases |x|
  {
    var s := x + y;
    if x != [] {
      assert ReplaceAll(s, pat, rep) == [x[0]] + ReplaceAll(x[1..] + y, pat, rep) by {
        if |pat| <= |s| && s[..|pat|] == pat {
          PrefixMatches(s, pat);
        }
        assert s[0] == x[0] && s[1..] == x[1..] + y;
      }
      assert ReplaceAll(x[1..] + y, pat, rep) == x[1..] + ReplaceAll(y, pat, rep) by {
        NoMatchInTail(x, y, pat);
        ReplaceAllSkip(x[1..], y, pat, rep);
      }
      assert [x[0]] + (x[1..] + ReplaceAll(y, pat, rep)) == ([x[0]] + x[1..]) + ReplaceAll(y, pat, rep);
      assert [x[0]] + x[1..] == x;
    } else {
      assert s == y;
    }
  }

  /**
   * The first occurrence is replaced and the scan resumes after it: when no
   * occurrence starts inside `a`, the pattern after `a` becomes `rep`.
   */
  lemma ReplaceAllStep(a: string, pat: string, rep: string, b: string)
    requires pat != []
    requires forall q: nat :: q < |a| ==> !MatchAt(a + pat + b, q, pat, false)
    ensures ReplaceAll(a + pat + b, pat, rep) == a + rep + ReplaceAll(b, pat, rep)
  {
    assert a + pat + b == a + (pat + b);
    ReplaceAllSkip(a, pat + b, pat, rep);
    var t := pat + b;
    assert t[..|pat|] == pat && t[|pat|..] == b;
  }

  /**
   * A single occurrence is replaced: when no occurrence starts inside `a`
   * and none lies in `b`, the pattern between them becomes `rep`.
   */
  lemma ReplaceAllOnce(a: string, pat: string, rep: string, b: string)
    requires pat != []
    requires forall q: nat :: q < |a| ==> !MatchAt(a + pat + b, q, pat, false)
    requires forall q :: !MatchAt(b, q, pat, false)
    ensures ReplaceAll(a + pat + b, pat, rep) == a + rep + b
  {
    ReplaceAllStep(a, pat, rep, b);
    ReplaceAllWithoutMatch(b, pat, rep);
  }

  /** `Array.prototype.join`. */
  function Join(parts: seq<string>, sep: string): string {
    if parts == [] then ""
    else if |parts| == 1 then parts[0]
    else parts[0] + sep + Join(parts[1..], sep)
  }

  /** Joining one more part appends the separator and that part. */
  lemma {:induction false} JoinAppend(parts: seq<string>, p: string, sep: string)
    requires parts != []
    ensures Join(parts + [p], sep) == Join(parts, sep) + sep + p
  {
    if |parts| > 1 {
      assert (parts + [p])[1..] == parts[1..] + [p];
      JoinAppend(parts[1..], p, sep);
    }
  }
}
