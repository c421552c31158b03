/** The JavaScript string operations the core relies on: `trim`,
    `startsWith`, `includes`, `slice`, plus the sequence facts
    (subsequence, concatenation) used to state what filtering and
    streaming preserve. */
module JsStrings {

  /** A character that `String.prototype.trim` removes: ECMAScript
      WhiteSpace and LineTerminator code points. */
  predicate IsJsSpace(c: char) {
    || c == ' '
    || ('\t' <= c <= '\r')
    || c == '\U{A0}' || c == '\U{1680}'
    || ('\U{2000}' <= c <= '\U{200A}')
    || c == '\U{2028}' || c == '\U{2029}' || c == '\U{202F}'
    || c == '\U{205F}' || c == '\U{3000}' || c == '\U{FEFF}'
  }

  /** Every character of `s` is removed by `trim`. */
  predicate Blank(s: string) {
    forall i | 0 <= i < |s| :: IsJsSpace(s[i])
  }

  function TrimStart(s: string): (r: string)
    ensures |r| <= |s|
    ensures r == s[|s| - |r|..]
  {
    if s != [] && IsJsSpace(s[0]) then TrimStart(s[1..]) else s
  }

  function TrimEnd(s: string): (r: string)
    ensures |r| <= |s|
    ensures r == s[..|r|]
  {
    if s != [] && IsJsSpace(s[|s| - 1]) then TrimEnd(s[..|s| - 1]) else s
  }

  /** `s.trim()`. */
  function Trim(s: string): string {
    TrimEnd(TrimStart(s))
  }

  /** `!s.trim()` in the source is exactly `Blank(s)`. */
  lemma {:induction false} TrimEmptyIffBlank(s: string)
    ensures Trim(s) == [] <==> Blank(s)
  {
    TrimStartEmptyIffBlank(s);
    var t := TrimStart(s);
    if t != [] {
      assert !IsJsSpace(t[0]) by { TrimStartStopsAtText(s); }
      TrimEndKeepsFirst(t);
    }
  }

  lemma {:induction false} TrimStartEmptyIffBlank(s: string)
    ensures TrimStart(s) == [] <==> Blank(s)
  {
    if s != [] {
      BlankCons(s);
      if IsJsSpace(s[0]) {
        TrimStartEmptyIffBlank(s[1..]);
      }
    }
  }

  /** A non-empty string is blank iff its head is a space and its tail is blank. */
  lemma BlankCons(s: string)
    requires s != []
    ensures Blank(s) <==> IsJsSpace(s[0]) && Blank(s[1..])
  {
    if IsJsSpace(s[0]) && Blank(s[1..]) {
      forall i | 0 <= i < |s| ensures IsJsSpace(s[i]) {
        if i > 0 { assert s[i] == s[1..][i - 1]; }
      }
    }
  }

  lemma {:induction false} TrimStartStopsAtText(s: string)
    requires TrimStart(s) != []
    ensures !IsJsSpace(TrimStart(s)[0])
  {
    if s != [] && IsJsSpace(s[0]) {
      TrimStartStopsAtText(s[1..]);
    }
  }

  lemma {:induction false} TrimEndKeepsFirst(t: string)
    requires t != [] && !IsJsSpace(t[0])
    ensures TrimEnd(t) != []
  {
    if IsJsSpace(t[|t| - 1]) {
      assert |t| > 1;
      TrimEndKeepsFirst(t[..|t| - 1]);
    }
  }

  /** `s.startsWith(p)`. */
  predicate StartsWith(s: string, p: string) {
    |p| <= |s| && s[..|p|] == p
  }

  /** `s.includes(t)`: `t` occurs in `s` at some position. */
  predicate Includes(s: string, t: string) {
    exists i | 0 <= i <= |s| :: StartsWith(s[i..], t)
  }

  /** A string that occurs in `s` has all its characters in `s`. */
  lemma IncludesChars(s: string, t: string, c: char)
    requires Includes(s, t) && c in t
    ensures c in s
  {
    var i :| 0 <= i <= |s| && StartsWith(s[i..], t);
    var j :| 0 <= j < |t| && t[j] == c;
    assert s[i..][j] == c;
  }

  /** `s.slice(0, n)` for a non-negative `n`. */
  function Prefix(s: string, n: nat): (r: string)
    ensures |r| == if n < |s| then n else |s|
    ensures StartsWith(s, r)
  {
    if n < |s| then s[..n] else s
  }

  /** `a` is obtained from `b` by deleting characters (greedy matching,
      which is complete for subsequences). */
  predicate IsSubseq(a: string, b: string)
    decreases |b|
  {
    if a == [] then true
    else if b == [] then false
    else if a[0] == b[0] then IsSubseq(a[1..], b[1..])
    else IsSubseq(a, b[1..])
  }

  lemma {:induction false} SubseqRefl(a: string)
    ensures IsSubseq(a, a)
  {
    if a != [] { SubseqRefl(a[1..]); }
  }

  lemma {:induction false} SubseqDropHead(a: string, b: string)
    requires a != [] && IsSubseq(a, b)
    ensures IsSubseq(a[1..], b)
    decreases |b|, 1
  {
    if a[0] != b[0] {
      SubseqDropHead(a, b[1..]);
      SubseqSkip(a[1..], b);
    } else {
      SubseqSkip(a[1..], b);
    }
  }

  /** A subsequence of the tail of `b` is a subsequence of `b`. */
  lemma {:induction false} SubseqSkip(a: string, b: string)
    requires b != [] && IsSubseq(a, b[1..])
    ensures IsSubseq(a, b)
    decreases |b|, 0
  {
    if a != [] && a[0] == b[0] {
      SubseqDropHead(a, b[1..]);
    }
  }

  lemma {:induction false} SubseqOfSuffix(a: string, b: string, k: nat)
    requires k <= |b| && IsSubseq(a, b[k..])
    ensures IsSubseq(a, b)
    decreases k
  {
    if k > 0 {
      assert b[k..] == b[1..][k - 1..];
      SubseqOfSuffix(a, b[1..], k - 1);
      SubseqSkip(a, b);
    }
  }

  /** Deleting characters twice is deleting characters. */
  lemma {:induction false} SubseqTrans(a: string, b: string, c: string)
    requires IsSubseq(a, b) && IsSubseq(b, c)
    ensures IsSubseq(a, c)
    decreases |c|
  {
    if a != [] {
      if b[0] == c[0] {
        if a[0] == b[0] {
          SubseqTrans(a[1..], b[1..], c[1..]);
        } else {
          SubseqTrans(a, b[1..], c[1..]);
        }
      } else {
        SubseqTrans(a, b, c[1..]);
        if a[0] == c[0] {
          SubseqDropHead(a, c[1..]);
        }
      }
    }
  }

  /** A subsequence is no longer than the original and has no new characters. */
  lemma {:induction false} SubseqShape(a: string, b: string)
    requires IsSubseq(a, b)
    ensures |a| <= |b|
    ensures forall c :: c in a ==> c in b
    decreases |b|
  {
    if a != [] {
      if a[0] == b[0] {
        SubseqShape(a[1..], b[1..]);
        forall c | c in a ensures c in b {
          if c != a[0] {
            assert c in a[1..];
          }
        }
      } else {
        SubseqShape(a, b[1..]);
      }
    }
  }

  /** Concatenation of fragments, in order (`fragments.join('')` for strings). */
  function Concat<T>(fragments: seq<seq<T>>): seq<T> {
    if fragments == [] then []
    else Concat(fragments[..|fragments| - 1]) + fragments[|fragments| - 1]
  }

  lemma ConcatSnoc<T>(fs: seq<seq<T>>, f: seq<T>)
    ensures Concat(fs + [f]) == Concat(fs) + f
  {
    assert (fs + [f])[..|fs|] == fs;
  }
}
