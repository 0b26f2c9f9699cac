/** The tokenizer of the doubleton mapper: a line is stripped of surrounding
    whitespace and then split on runs of whitespace, with the semantics of
    Python's no-argument `str.strip()` and `str.split()`. */
module Tokenizer {

  /** The characters Python's `str.isspace()` accepts, which are the ones
      `str.strip()` and `str.split()` treat as whitespace. */
  predicate IsWhitespace(c: char) {
    c == ' ' || c == '\t' || c == '\n' || c == '\r' || c == '\U{0B}' || c == '\U{0C}'
    || ('\U{1C}' <= c <= '\U{1F}')
    || c == '\U{85}' || c == '\U{A0}' || c == '\U{1680}'
    || ('\U{2000}' <= c <= '\U{200A}')
    || c == '\U{2028}' || c == '\U{2029}' || c == '\U{202F}' || c == '\U{205F}' || c == '\U{3000}'
  }

  predicate AllWhitespace(s: string) {
    forall k | 0 <= k < |s| :: IsWhitespace(s[k])
  }

  /** A token as `str.split()` produces it: non-empty, without whitespace. */
  predicate IsToken(t: string) {
    |t| > 0 && forall k | 0 <= k < |t| :: !IsWhitespace(t[k])
  }

  /** The characters of `s` that are not whitespace, in order. */
  function NonWhitespace(s: string): string {
    if s == [] then []
    else (if IsWhitespace(s[0]) then [] else [s[0]]) + NonWhitespace(s[1..])
  }

  /** The tokens laid end to end. */
  function Concat(toks: seq<string>): string {
    if toks == [] then [] else toks[0] + Concat(toks[1..])
  }

  /** The tokens joined by single spaces (Python's `' '.join(toks)`). */
  function Join(toks: seq<string>): string {
    if toks == [] then []
    else if |toks| == 1 then toks[0]
    else toks[0] + " " + Join(toks[1..])
  }

  /** Number of whitespace characters at the front of `s`: all of them are
      whitespace and the character after them is not. */
  function LeadingWhitespace(s: string): (n: nat)
    ensures n <= |s|
    ensures forall k | 0 <= k < n :: IsWhitespace(s[k])
    ensures n < |s| ==> !IsWhitespace(s[n])
  {
    if s != [] && IsWhitespace(s[0]) then 1 + LeadingWhitespace(s[1..]) else 0
  }

  /** Number of whitespace characters at the end of `s`: all of them are
      whitespace and the character before them is not. */
  function TrailingWhitespace(s: string): (n: nat)
    ensures n <= |s|
    ensures forall k | |s| - n <= k < |s| :: IsWhitespace(s[k])
    ensures n < |s| ==> !IsWhitespace(s[|s| - n - 1])
  {
    if s != [] && IsWhitespace(s[|s| - 1]) then 1 + TrailingWhitespace(s[..|s| - 1]) else 0
  }

  /** Python's `line.strip()`: the line without leading and trailing
      whitespace. */
  function Strip(s: string): string {
    var lo := LeadingWhitespace(s);
    var hi := |s| - TrailingWhitespace(s[lo..]);
    s[lo..hi]
  }

  /** The stripped line is the slice of `s` that starts after its leading
      whitespace; everything around it is whitespace and its ends are not. */
  lemma StripShape(s: string)
    ensures LeadingWhitespace(s) + |Strip(s)| <= |s|
    ensures Strip(s) == s[LeadingWhitespace(s)..LeadingWhitespace(s) + |Strip(s)|]
    ensures AllWhitespace(s[..LeadingWhitespace(s)])
    ensures AllWhitespace(s[LeadingWhitespace(s) + |Strip(s)|..])
    ensures Strip(s) != [] ==> !IsWhitespace(Strip(s)[0]) && !IsWhitespace(Strip(s)[|Strip(s)| - 1])
  {
    var lo := LeadingWhitespace(s);
    var rest := s[lo..];
    var t := TrailingWhitespace(rest);
    var hi := |s| - t;
    assert Strip(s) == s[lo..hi];
    TrailingSlice(s, lo, t);
  }

  /** The trailing whitespace of a suffix `s[lo..]` is trailing whitespace of
      `s` itself. */
  lemma TrailingSlice(s: string, lo: nat, t: nat)
    requires lo <= |s| && t == TrailingWhitespace(s[lo..])
    ensures AllWhitespace(s[|s| - t..])
  {
    assert s[|s| - t..] == s[lo..][|s| - lo - t..];
  }

  /** The stripped line is empty exactly when the whole line is whitespace. */
  lemma StripEmpty(s: string)
    ensures Strip(s) == [] <==> AllWhitespace(s)
  {
    StripShape(s);
    var lo := LeadingWhitespace(s);
    var hi := lo + |Strip(s)|;
    if Strip(s) == [] {
      assert s == s[..lo] + s[hi..];
      AllWhitespaceAppend(s[..lo], s[hi..]);
    } else {
      assert s[lo] == Strip(s)[0];
    }
  }

  lemma AllWhitespaceAppend(a: string, b: string)
    requires AllWhitespace(a) && AllWhitespace(b)
    ensures AllWhitespace(a + b)
  {
  }

  /** Length of the run of non-whitespace characters at the start of `s`. */
  function WordLength(s: string): (k: nat)
    ensures k <= |s|
    ensures forall m | 0 <= m < k :: !IsWhitespace(s[m])
    ensures k == |s| || IsWhitespace(s[k])
  {
    if s == [] || IsWhitespace(s[0]) then 0 else 1 + WordLength(s[1..])
  }

  /** Python's no-argument `str.split()`: the maximal runs of non-whitespace
      characters of `s`, left to right. Runs of whitespace, leading and
      trailing whitespace never give an (empty) token. */
  function Split(s: string): (toks: seq<string>)
    ensures forall k | 0 <= k < |toks| :: IsToken(toks[k])
    decreases |s|
  {
    if s == [] then []
    else if IsWhitespace(s[0]) then Split(s[1..])
    else
      var k := WordLength(s);
      [s[..k]] + Split(s[k..])
  }

  /** The tokens of one input line: `line.strip().split()`. */
  function Tokens(line: string): seq<string> {
    Split(Strip(line))
  }

  lemma {:induction false} SplitSkipsLeadingWhitespace(w: string, s: string)
    requires AllWhitespace(w)
    ensures Split(w + s) == Split(s)
    decreases |w|
  {
    if w != [] {
      assert (w + s)[1..] == w[1..] + s;
      SplitSkipsLeadingWhitespace(w[1..], s);
    } else {
      assert w + s == s;
    }
  }

  lemma {:induction false} SplitSkipsTrailingWhitespace(s: string, w: string)
    requires AllWhitespace(w)
    ensures Split(s + w) == Split(s)
    decreases |s|
  {
    if s == [] {
      assert s + w == w + [];
      SplitSkipsLeadingWhitespace(w, []);
    } else if IsWhitespace(s[0]) {
      assert (s + w)[1..] == s[1..] + w;
      SplitSkipsTrailingWhitespace(s[1..], w);
    } else {
      var k := WordLength(s);
      WordLengthOfExtension(s, w);
      assert (s + w)[..k] == s[..k];
      assert (s + w)[k..] == s[k..] + w;
      SplitSkipsTrailingWhitespace(s[k..], w);
    }
  }

  /** A word cannot run on into appended whitespace. */
  lemma {:induction false} WordLengthOfExtension(s: string, w: string)
    requires AllWhitespace(w)
    ensures WordLength(s + w) == WordLength(s)
    decreases |s|
  {
    if s == [] {
      assert s + w == w;
    } else if !IsWhitespace(s[0]) {
      assert (s + w)[1..] == s[1..] + w;
      WordLengthOfExtension(s[1..], w);
    }
  }

  /** Stripping before splitting changes nothing: `line.strip().split()` and
      `line.split()` give the same tokens. */
  lemma {:induction false} StripKeepsTokens(line: string)
    ensures Tokens(line) == Split(line)
  {
    StripShape(line);
    var lo := LeadingWhitespace(line);
    var r := Strip(line);
    var hi := lo + |r|;
    assert line == line[..lo] + (r + line[hi..]);
    SplitSkipsLeadingWhitespace(line[..lo], r + line[hi..]);
    SplitSkipsTrailingWhitespace(r, line[hi..]);
  }

  /** Splitting loses no non-whitespace character and invents none: the tokens
      laid end to end are exactly the line's non-whitespace characters. */
  lemma {:induction false} SplitKeepsCharacters(s: string)
    ensures Concat(Split(s)) == NonWhitespace(s)
    decreases |s|
  {
    if s == [] {
    } else if IsWhitespace(s[0]) {
      SplitKeepsCharacters(s[1..]);
    } else {
      var k := WordLength(s);
      SplitKeepsCharacters(s[k..]);
      WordIsNonWhitespace(s, k);
      assert Split(s) == [s[..k]] + Split(s[k..]);
      assert Concat(Split(s)) == s[..k] + Concat(Split(s[k..]));
    }
  }

  /** The first `k` characters, none of them whitespace, pass through
      `NonWhitespace` unchanged. */
  lemma {:induction false} WordIsNonWhitespace(s: string, k: nat)
    requires k <= |s|
    requires forall m | 0 <= m < k :: !IsWhitespace(s[m])
    ensures NonWhitespace(s) == s[..k] + NonWhitespace(s[k..])
    decreases k
  {
    if k > 0 {
      WordIsNonWhitespace(s[1..], k - 1);
      assert s[1..][k - 1..] == s[k..];
      assert s[..k] == [s[0]] + s[1..][..k - 1];
    }
  }

  /** A line gives no token exactly when it is all whitespace (or empty). */
  lemma BlankLineHasNoTokens(line: string)
    ensures Tokens(line) == [] <==> AllWhitespace(line)
  {
    StripKeepsTokens(line);
    SplitKeepsCharacters(line);
    NonWhitespaceEmpty(line);
    if Split(line) != [] {
      assert |Split(line)[0]| > 0;
      assert Concat(Split(line)) == Split(line)[0] + Concat(Split(line)[1..]);
    }
  }

  lemma {:induction false} NonWhitespaceEmpty(s: string)
    ensures NonWhitespace(s) == [] <==> AllWhitespace(s)
    decreases |s|
  {
    if s != [] {
      NonWhitespaceEmpty(s[1..]);
      assert AllWhitespace(s) <==> IsWhitespace(s[0]) && AllWhitespace(s[1..]);
    }
  }

  /** Joining tokens with single spaces and splitting again gives the tokens
      back: `split` recovers every token, in order, and merges none. */
  lemma {:induction false} SplitJoin(toks: seq<string>)
    requires forall k | 0 <= k < |toks| :: IsToken(toks[k])
    ensures Split(Join(toks)) == toks
    decreases |toks|
  {
    if toks == [] {
    } else if |toks| == 1 {
      var t := toks[0];
      WordLengthOfExtension(t, []);
      WholeWord(t);
      assert t + [] == t;
      assert Split(t) == [t[..|t|]] + Split(t[|t|..]);
      assert t[..|t|] == t;
    } else {
      var t := toks[0];
      var tail := Join(toks[1..]);
      assert Join(toks) == t + (" " + tail);
      SplitFirstToken(t, " ", tail);
      SplitJoin(toks[1..]);
      assert toks == [t] + toks[1..];
    }
  }

  lemma {:induction false} WholeWord(t: string)
    requires IsToken(t)
    ensures WordLength(t) == |t|
    decreases |t|
  {
    if |t| > 1 {
      WholeWord(t[1..]);
    }
  }

  lemma {:induction false} WordLengthStops(t: string, rest: string)
    requires forall k | 0 <= k < |t| :: !IsWhitespace(t[k])
    requires rest != [] && IsWhitespace(rest[0])
    ensures WordLength(t + rest) == |t|
    decreases |t|
  {
    if t == [] {
      assert t + rest == rest;
    } else {
      assert (t + rest)[1..] == t[1..] + rest;
      WordLengthStops(t[1..], rest);
    }
  }

  /** A token followed by whitespace is split off as the first token. */
  lemma SplitFirstToken(t: string, w: string, s: string)
    requires IsToken(t) && w != [] && AllWhitespace(w)
    ensures Split(t + (w + s)) == [t] + Split(s)
  {
    var x := t + (w + s);
    WordLengthStops(t, w + s);
    assert x[..|t|] == t;
    assert x[|t|..] == w + s;
    SplitSkipsLeadingWhitespace(w, s);
  }

  /** Three tokens with whitespace runs around and between them split into
      those three tokens, however long the runs are; the runs before the
      first and after the last token may be empty. */
  lemma SplitThreeTokens(w0: string, a: string, w1: string, b: string, w2: string, c: string, w3: string)
    requires AllWhitespace(w0) && IsToken(a) && IsToken(b) && IsToken(c)
    requires w1 != [] && AllWhitespace(w1) && w2 != [] && AllWhitespace(w2)
    requires AllWhitespace(w3)
    ensures Split(w0 + (a + (w1 + (b + (w2 + (c + w3)))))) == [a, b, c]
  {
    var tail := c + w3;
    if w3 == [] {
      assert tail == c;
      SplitJoin([c]);
    } else {
      SplitFirstToken(c, w3, []);
      assert w3 + [] == w3;
    }
    SplitFirstToken(b, w2, tail);
    var bc := b + (w2 + tail);
    SplitFirstToken(a, w1, bc);
    SplitSkipsLeadingWhitespace(w0, a + (w1 + bc));
  }

  /** Leading, trailing and repeated whitespace never produce tokens. */
  lemma WhitespaceNormalisationExample(line: string)
    requires line == "  a   b  c "
    ensures Tokens(line) == ["a", "b", "c"]
  {
    SplitThreeTokens("  ", "a", "   ", "b", "  ", "c", " ");
    assert line == "  " + ("a" + ("   " + ("b" + ("  " + ("c" + " ")))));
    StripKeepsTokens(line);
  }
}
