/** The special-token filter of BaseInference.filterSpecialTokens
    (src/inference/BaseInference.ts:43-64), as specification functions.

    Each entry of the token list is compiled with `new RegExp(token, 'g')`
    and applied with `String.prototype.replace(…, '')`: one left-to-right,
    non-overlapping removal pass. The default entries `<|endoftext|>`,
    `<|im_start|>` and `<|im_end|>` contain `|`, so as regular expressions
    they are alternations (`<` or `endoftext` or `>`, …), not literals;
    every other entry (default or custom) is taken as a literal. */
module TokenFilter {
  import opened Wrappers
  import opened JsStrings

  /** One compiled filter entry: its alternatives, tried in order at each position. */
  type Pattern = seq<string>

  /** The list used when the configuration gives no `filterTokens`. */
  const DefaultTokens: seq<string> := [
    "<end_of_turn>",
    "</s>",
    "<eos>",
    "<|endoftext|>",
    "<start_of_turn>",
    "<|im_start|>",
    "<|im_end|>"
  ]

  /** The pattern `new RegExp(token, 'g')` denotes for the tokens modelled. */
  function PatternOf(token: string): Pattern {
    if token == "<|endoftext|>" then ["<", "endoftext", ">"]
    else if token == "<|im_start|>" then ["<", "im_start", ">"]
    else if token == "<|im_end|>" then ["<", "im_end", ">"]
    else [token]
  }

  function Patterns(tokens: seq<string>): (ps: seq<Pattern>)
    ensures |ps| == |tokens|
    ensures forall i | 0 <= i < |tokens| :: ps[i] == PatternOf(tokens[i])
  {
    if tokens == [] then [] else [PatternOf(tokens[0])] + Patterns(tokens[1..])
  }

  /** Alternative `a` matches (a non-empty string) at the start of `s`. */
  predicate MatchesAt(s: string, a: string) {
    a != [] && StartsWith(s, a)
  }

  /** The index of the first alternative that matches at the start of `s`,
      or `|alts|` when none does. */
  function FirstMatch(s: string, alts: Pattern): (j: nat)
    ensures j <= |alts|
    ensures j < |alts| ==> MatchesAt(s, alts[j])
    ensures forall k | 0 <= k < j :: !MatchesAt(s, alts[k])
  {
    if alts == [] then 0
    else if MatchesAt(s, alts[0]) then 0
    else 1 + FirstMatch(s, alts[1..])
  }

  /** `s.replace(new RegExp(alternatives, 'g'), '')`: scanning left to
      right, remove the first matching alternative wherever one matches
      and resume after it; keep a character where none matches. */
  function RemovePass(s: string, alts: Pattern): (r: string)
    ensures IsSubseq(r, s)
    decreases |s|
  {
    if s == [] then []
    else
      var j := FirstMatch(s, alts);
      if j < |alts| then
        var r := RemovePass(s[|alts[j]|..], alts);
        SubseqOfSuffix(r, s, |alts[j]|);
        r
      else
        [s[0]] + RemovePass(s[1..], alts)
  }

  /** The passes applied one after another, in list order (`forEach`). */
  function FilterAll(s: string, ps: seq<Pattern>): string
    decreases |ps|
  {
    if ps == [] then s else FilterAll(RemovePass(s, ps[0]), ps[1..])
  }

  /** `this.config?.filterTokens || defaultTokens`: an array, even an empty
      one, is truthy, so a configured list replaces the defaults. */
  function TokensToFilter(filterTokens: Option<seq<string>>): seq<string> {
    match filterTokens
    case Some(tokens) => tokens
    case None => DefaultTokens
  }

  /** What filterSpecialTokens returns for `text`. */
  function Filter(text: string, filterTokens: Option<seq<string>>): string {
    FilterAll(text, Patterns(TokensToFilter(filterTokens)))
  }

  // ----- Properties -----

  /** The empty string filters to itself. */
  lemma {:induction false} FilterAllEmpty(ps: seq<Pattern>)
    ensures FilterAll([], ps) == []
    decreases |ps|
  {
    if ps != [] { FilterAllEmpty(ps[1..]); }
  }

  lemma FilterEmpty(filterTokens: Option<seq<string>>)
    ensures Filter([], filterTokens) == []
  {
    FilterAllEmpty(Patterns(TokensToFilter(filterTokens)));
  }

  /** Every pass only deletes characters. */
  lemma {:induction false} FilterAllSubseq(s: string, ps: seq<Pattern>)
    ensures IsSubseq(FilterAll(s, ps), s)
    decreases |ps|
  {
    if ps == [] {
      SubseqRefl(s);
    } else {
      var s' := RemovePass(s, ps[0]);
      FilterAllSubseq(s', ps[1..]);
      SubseqTrans(FilterAll(s', ps[1..]), s', s);
    }
  }

  /** Filtering only deletes: the output is a subsequence of the input and
      no longer than it, whatever the token list. */
  lemma FilterOnlyDeletes(text: string, filterTokens: Option<seq<string>>)
    ensures IsSubseq(Filter(text, filterTokens), text)
    ensures |Filter(text, filterTokens)| <= |text|
  {
    FilterAllSubseq(text, Patterns(TokensToFilter(filterTokens)));
    SubseqShape(Filter(text, filterTokens), text);
  }

  /** A configured list is used instead of the defaults; an empty list
      leaves the text unchanged. */
  lemma ConfiguredTokensOnly(text: string, tokens: seq<string>)
    ensures Filter(text, Some(tokens)) == FilterAll(text, Patterns(tokens))
    ensures tokens == [] ==> Filter(text, Some(tokens)) == text
  {
  }

  /** A pass with the one-character alternative `[c]` leaves no `c`: at a
      `c` some alternative matches, so that position is removed. */
  lemma {:induction false} RemovePassDrops(s: string, alts: Pattern, c: char)
    requires [c] in alts
    ensures c !in RemovePass(s, alts)
    decreases |s|
  {
    if s != [] {
      var j := FirstMatch(s, alts);
      if j < |alts| {
        RemovePassDrops(s[|alts[j]|..], alts, c);
      } else {
        var k :| 0 <= k < |alts| && alts[k] == [c];
        assert s[0] != c by {
          assert !MatchesAt(s, alts[k]);
          assert s[..1] == [s[0]];
        }
        RemovePassDrops(s[1..], alts, c);
      }
    }
  }

  /** Passes never introduce a character. */
  lemma FilterAllKeepsOut(s: string, ps: seq<Pattern>, c: char)
    requires c !in s
    ensures c !in FilterAll(s, ps)
  {
    FilterAllSubseq(s, ps);
    SubseqShape(FilterAll(s, ps), s);
  }

  /** With the defaults the output contains no `<` and no `>`: the
      `<|endoftext|>` pass removes every one and later passes add none. */
  lemma DefaultsStripAngles(text: string)
    ensures '<' !in Filter(text, None)
    ensures '>' !in Filter(text, None)
  {
    var ps := Patterns(DefaultTokens);
    DefaultPatternsHead();
    var a := FilterAll(text, ps[..3]);
    FilterAllSplit(text, ps, 4);
    FilterAllSnoc(text, ps[..4]);
    assert ps[..4][..3] == ps[..3];
    var b := RemovePass(a, ps[3]);
    RemovePassDrops(a, ps[3], '<');
    RemovePassDrops(a, ps[3], '>');
    FilterAllKeepsOut(b, ps[4..], '<');
    FilterAllKeepsOut(b, ps[4..], '>');
  }

  /** Running a list of passes is running its first `n` passes, then the rest. */
  lemma {:induction false} FilterAllSplit(s: string, ps: seq<Pattern>, n: nat)
    requires n <= |ps|
    ensures FilterAll(s, ps) == FilterAll(FilterAll(s, ps[..n]), ps[n..])
    decreases n
  {
    if n > 0 {
      FilterAllSplit(RemovePass(s, ps[0]), ps[1..], n - 1);
      assert ps[1..][..n - 1] == ps[..n][1..];
      assert ps[1..][n - 1..] == ps[n..];
    }
  }

  lemma FilterAllSnoc(s: string, ps: seq<Pattern>)
    requires ps != []
    ensures FilterAll(s, ps) == RemovePass(FilterAll(s, ps[..|ps| - 1]), ps[|ps| - 1])
  {
    FilterAllSplit(s, ps, |ps| - 1);
    assert ps[|ps| - 1..] == [ps[|ps| - 1]];
  }

  /** No alternative of the pattern matches anywhere in `s`. */
  predicate NoMatch(s: string, alts: Pattern) {
    forall i, a | 0 <= i < |s| && a in alts :: !MatchesAt(s[i..], a)
  }

  lemma {:induction false} RemovePassNoMatch(s: string, alts: Pattern)
    requires NoMatch(s, alts)
    ensures RemovePass(s, alts) == s
    decreases |s|
  {
    if s != [] {
      assert s[0..] == s;
      forall k | 0 <= k < |alts| ensures !MatchesAt(s, alts[k]) {
        assert alts[k] in alts;
      }
      assert NoMatch(s[1..], alts) by {
        forall i, a | 0 <= i < |s[1..]| && a in alts ensures !MatchesAt(s[1..][i..], a) {
          assert s[1..][i..] == s[i + 1..];
        }
      }
      RemovePassNoMatch(s[1..], alts);
    }
  }

  /** An alternative that begins with `<` cannot match in text without `<`. */
  lemma NoMatchWithoutOpen(s: string, alts: Pattern)
    requires '<' !in s
    requires forall a | a in alts :: a != [] && a[0] == '<'
    ensures NoMatch(s, alts)
  {
    forall i, a | 0 <= i < |s| && a in alts ensures !MatchesAt(s[i..], a) {
      assert s[i..][0] == s[i];
    }
  }

  /** An alternation `<` | `w` | `>` cannot match in text with no angle
      bracket and no occurrence of `w`. */
  lemma NoMatchAlternation(s: string, w: string)
    requires '<' !in s && '>' !in s && !Includes(s, w)
    ensures NoMatch(s, ["<", w, ">"])
  {
    forall i, a | 0 <= i < |s| && a in ["<", w, ">"] ensures !MatchesAt(s[i..], a) {
      assert s[i..][0] == s[i];
      assert !StartsWith(s[i..], w);
    }
  }

  /** Passes none of whose alternatives match leave the text unchanged. */
  lemma {:induction false} FilterAllNoMatch(s: string, ps: seq<Pattern>)
    requires forall k | 0 <= k < |ps| :: NoMatch(s, ps[k])
    ensures FilterAll(s, ps) == s
    decreases |ps|
  {
    if ps != [] {
      RemovePassNoMatch(s, ps[0]);
      FilterAllNoMatch(s, ps[1..]);
    }
  }

  /** With the defaults, text with no `<`, no `>` and none of the words
      `endoftext`, `im_start`, `im_end` comes back unchanged. */
  lemma DefaultsKeepPlainText(text: string)
    requires '<' !in text && '>' !in text
    requires !Includes(text, "endoftext")
    requires !Includes(text, "im_start")
    requires !Includes(text, "im_end")
    ensures Filter(text, None) == text
  {
    var ps := Patterns(DefaultTokens);
    DefaultPatternsHead();
    DefaultPatternsTail();
    forall k | 0 <= k < |ps| ensures NoMatch(text, ps[k]) {
      if k == 3 {
        NoMatchAlternation(text, "endoftext");
      } else if k == 5 {
        NoMatchAlternation(text, "im_start");
      } else if k == 6 {
        NoMatchAlternation(text, "im_end");
      } else {
        NoMatchWithoutOpen(text, ps[k]);
      }
    }
    FilterAllNoMatch(text, ps);
  }

  // ----- What an alternation pass does, and two worked inputs -----

  /** `s` with every `<` and `>` deleted. */
  function DropAngles(s: string): string {
    if s == [] then []
    else (if s[0] == '<' || s[0] == '>' then [] else [s[0]]) + DropAngles(s[1..])
  }

  /** Where the word `w` does not occur, the pass `<|w|>` deletes exactly
      the angle brackets. */
  lemma {:induction false} AlternationDropsAngles(s: string, w: string)
    requires w != [] && w[0] != '<' && w[0] != '>'
    requires !Includes(s, w)
    ensures RemovePass(s, ["<", w, ">"]) == DropAngles(s)
    decreases |s|
  {
    if s != [] {
      var p := ["<", w, ">"];
      assert s[..1] == [s[0]];
      assert s[0..] == s;
      assert !StartsWith(s[0..], w);
      assert !Includes(s[1..], w) by {
        forall i | 0 <= i <= |s[1..]| ensures !StartsWith(s[1..][i..], w) {
          assert s[1..][i..] == s[i + 1..];
        }
      }
      AlternationDropsAngles(s[1..], w);
      var j := FirstMatch(s, p);
      if s[0] == '<' {
        assert MatchesAt(s, p[0]);
        assert j == 0;
      } else if s[0] == '>' {
        assert !MatchesAt(s, p[0]) && !MatchesAt(s, p[1]) && MatchesAt(s, p[2]);
        assert j == 2;
      } else {
        assert !MatchesAt(s, p[0]) && !MatchesAt(s, p[1]) && !MatchesAt(s, p[2]);
        assert j == 3;
      }
    }
  }

  /** Alternatives beginning with `<` can match only where `s` has a `<`;
      here the only one is at `k`, and none matches there. */
  lemma NoMatchExceptAt(s: string, alts: Pattern, k: nat)
    requires k < |s|
    requires forall i | 0 <= i < |s| && i != k :: s[i] != '<'
    requires forall a | a in alts :: a != [] && a[0] == '<' && !StartsWith(s[k..], a)
    ensures NoMatch(s, alts)
  {
    forall i, a | 0 <= i < |s| && a in alts ensures !MatchesAt(s[i..], a) {
      assert s[i..][0] == s[i];
    }
  }

  /** A literal pass for a token beginning with `<` keeps any other head. */
  lemma LiteralKeepsHead(c: char, y: string, t: string)
    requires t != [] && t[0] == '<' && c != '<'
    ensures RemovePass([c] + y, [t]) == [c] + RemovePass(y, [t])
  {
    if |t| <= |[c] + y| { assert ([c] + y)[..|t|][0] == c; }
    assert FirstMatch([c] + y, [t]) == 1 by { assert [t][1..] == []; }
    assert ([c] + y)[1..] == y;
  }

  /** Text without `<` has neither a `<` head nor a `<` in its tail. */
  lemma NoOpenSplit(x: string)
    requires x != [] && '<' !in x
    ensures x[0] != '<' && '<' !in x[1..]
  {
    assert x[0] in x;
    forall d | d in x[1..] ensures d in x { }
  }

  /** A literal pass for a token beginning with `<` keeps a prefix without `<`. */
  lemma {:induction false} LiteralPassKeepsPrefix(x: string, z: string, t: string)
    requires t != [] && t[0] == '<' && '<' !in x
    ensures RemovePass(x + z, [t]) == x + RemovePass(z, [t])
    decreases |x|
  {
    if x != [] {
      var c, x' := x[0], x[1..];
      NoOpenSplit(x);
      assert x == [c] + x';
      assert x + z == [c] + (x' + z);
      LiteralKeepsHead(c, x' + z, t);
      LiteralPassKeepsPrefix(x', z, t);
      assert [c] + (x' + RemovePass(z, [t])) == x + RemovePass(z, [t]);
    } else {
      assert x + z == z;
    }
  }

  /** A literal pass leaves text in which its token does not occur unchanged. */
  lemma LiteralPassAbsent(s: string, t: string)
    requires !Includes(s, t)
    ensures RemovePass(s, [t]) == s
  {
    forall i, a | 0 <= i < |s| && a in [t] ensures !MatchesAt(s[i..], a) {
      assert !StartsWith(s[i..], t);
    }
    RemovePassNoMatch(s, [t]);
  }

  /** A literal pass for a token beginning with `<` removes its one occurrence
      between two stretches without `<`. */
  lemma LiteralPassRemoves(x: string, t: string, w: string)
    requires t != [] && t[0] == '<' && '<' !in x && '<' !in w
    ensures RemovePass(x + t + w, [t]) == x + w
  {
    assert x + t + w == x + (t + w);
    LiteralPassKeepsPrefix(x, t + w, t);
    var s := t + w;
    assert s[..|t|] == t && s[|t|..] == w;
    assert FirstMatch(s, [t]) == 0;
    NoMatchWithoutOpen(w, [t]);
    RemovePassNoMatch(w, [t]);
  }

  /** A one-token list runs that token's single pass. */
  lemma SingleTokenFilter(s: string, t: string)
    ensures Filter(s, Some([t])) == RemovePass(s, PatternOf(t))
  {
    var ps := Patterns([t]);
    assert ps == [PatternOf(t)];
    assert Filter(s, Some([t])) == FilterAll(s, ps);
    assert ps[1..] == [];
    assert FilterAll(s, ps) == FilterAll(RemovePass(s, ps[0]), ps[1..]);
  }

  /** With the token list `["<eos>"]`, `x + "<eos>" + w` becomes `x + w`
      (so `"hello<eos>world"` becomes `"helloworld"`). */
  lemma FilterRemovesEos(x: string, w: string)
    requires '<' !in x && '<' !in w
    ensures Filter(x + "<eos>" + w, Some(["<eos>"])) == x + w
  {
    var t := "<eos>";
    assert PatternOf(t) == [t];
    LiteralPassRemoves(x, t, w);
    SingleTokenFilter(x + t + w, t);
  }

  /** A literal token that does not occur leaves the text unchanged; in
      particular a fragment shorter than the token, such as `"<eo"`, passes
      through. */
  lemma FilterKeepsAbsentToken(s: string, t: string)
    requires PatternOf(t) == [t]
    requires !Includes(s, t) || |s| < |t|
    ensures Filter(s, Some([t])) == s
  {
    if |s| < |t| {
      forall i | 0 <= i <= |s| ensures !StartsWith(s[i..], t) { }
    }
    LiteralPassAbsent(s, t);
    SingleTokenFilter(s, t);
  }

  lemma DefaultPatternsHead()
    ensures |Patterns(DefaultTokens)| == 7
    ensures Patterns(DefaultTokens)[0] == ["<end_of_turn>"]
    ensures Patterns(DefaultTokens)[1] == ["</s>"]
    ensures Patterns(DefaultTokens)[2] == ["<eos>"]
    ensures Patterns(DefaultTokens)[3] == ["<", "endoftext", ">"]
  {
  }

  lemma DefaultPatternsTail()
    ensures |Patterns(DefaultTokens)| == 7
    ensures Patterns(DefaultTokens)[4] == ["<start_of_turn>"]
    ensures Patterns(DefaultTokens)[5] == ["<", "im_start", ">"]
    ensures Patterns(DefaultTokens)[6] == ["<", "im_end", ">"]
  {
  }
}
