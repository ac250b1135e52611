/** The string helpers `providerConfigure` relies on: Go's `strings.TrimSpace`
    (with `unicode.IsSpace`) and the `%q` verb of `fmt`. */
module Text {
  import opened Wrappers

  /** Go's `unicode.IsSpace`: the Latin-1 spaces plus the rest of Unicode's
      White_Space property. */
  predicate IsSpace(c: char) {
    || c == '\t' || c == '\n' || c == '\U{000B}' || c == '\U{000C}' || c == '\r' || c == ' '
    || c == '\U{0085}' || c == '\U{00A0}' || c == '\U{1680}'
    || ('\U{2000}' <= c <= '\U{200A}')
    || c == '\U{2028}' || c == '\U{2029}' || c == '\U{202F}' || c == '\U{205F}' || c == '\U{3000}'
  }

  predicate AllSpace(s: string) {
    forall k {:trigger IsSpace(s[k])} :: 0 <= k < |s| ==> IsSpace(s[k])
  }

  /** Neither the first nor the last character is white space. */
  predicate NoOuterSpace(s: string) {
    |s| == 0 || (!IsSpace(s[0]) && !IsSpace(s[|s| - 1]))
  }

  /** The length of the longest all-space prefix of `s`. */
  function LeadingSpaces(s: string): (n: nat)
    ensures n <= |s|
    ensures AllSpace(s[..n])
    ensures n < |s| ==> !IsSpace(s[n])
  {
    if |s| > 0 && IsSpace(s[0]) then
      var m := LeadingSpaces(s[1..]);
      assert s[..1 + m] == [s[0]] + s[1..][..m];
      1 + m
    else 0
  }

  /** The length of the longest all-space suffix of `s`. */
  function TrailingSpaces(s: string): (n: nat)
    ensures n <= |s|
    ensures AllSpace(s[|s| - n..])
    ensures n < |s| ==> !IsSpace(s[|s| - n - 1])
  {
    if |s| > 0 && IsSpace(s[|s| - 1]) then
      var p := s[..|s| - 1];
      var m := TrailingSpaces(p);
      assert s[|s| - (1 + m)..] == p[|p| - m..] + [s[|s| - 1]];
      1 + m
    else 0
  }

  /** Go's `strings.TrimLeftFunc(s, unicode.IsSpace)`. */
  function TrimLeft(s: string): string {
    if |s| > 0 && IsSpace(s[0]) then TrimLeft(s[1..]) else s
  }

  /** Go's `strings.TrimRightFunc(s, unicode.IsSpace)`. */
  function TrimRight(s: string): string {
    if |s| > 0 && IsSpace(s[|s| - 1]) then TrimRight(s[..|s| - 1]) else s
  }

  /** Go's `strings.TrimSpace`: `s` without its leading and trailing white
      space. */
  function TrimSpace(s: string): string {
    TrimRight(TrimLeft(s))
  }

  /** TrimLeft drops exactly the longest all-space prefix. */
  lemma {:induction false} TrimLeftDropsLeading(s: string)
    ensures TrimLeft(s) == s[LeadingSpaces(s)..]
  {
    if |s| > 0 && IsSpace(s[0]) {
      TrimLeftDropsLeading(s[1..]);
      assert s[1..][LeadingSpaces(s[1..])..] == s[1 + LeadingSpaces(s[1..])..];
    }
  }

  /** TrimRight drops exactly the longest all-space suffix. */
  lemma {:induction false} TrimRightDropsTrailing(s: string)
    ensures TrimRight(s) == s[..|s| - TrailingSpaces(s)]
  {
    if |s| > 0 && IsSpace(s[|s| - 1]) {
      var p := s[..|s| - 1];
      TrimRightDropsTrailing(p);
      assert p[..|p| - TrailingSpaces(p)] == s[..|s| - 1 - TrailingSpaces(p)];
    }
  }

  /** TrimSpace is the infix left after dropping the longest all-space prefix
      and then the longest all-space suffix of the rest. */
  lemma TrimSpaceDrops(s: string)
    ensures var t := s[LeadingSpaces(s)..];
            TrimSpace(s) == t[..|t| - TrailingSpaces(t)]
  {
    TrimLeftDropsLeading(s);
    TrimRightDropsTrailing(s[LeadingSpaces(s)..]);
  }

  /** The trimmed string neither begins nor ends with white space and is no
      longer than its input. */
  lemma TrimSpaceTrims(s: string)
    ensures NoOuterSpace(TrimSpace(s))
    ensures |TrimSpace(s)| <= |s|
  {
    TrimSpaceDrops(s);
    var a := LeadingSpaces(s);
    var t := s[a..];
    var n := TrailingSpaces(t);
    var r := t[..|t| - n];
    if |r| > 0 {
      assert r[0] == s[a];
      assert r[|r| - 1] == t[|t| - n - 1];
    }
  }

  /** TrimSpace removes exactly the outer white space: whenever `s[i..j]` is an
      infix without outer white space whose surroundings in `s` are all white
      space, it is the trimmed string. */
  lemma TrimSpaceUnique(s: string, i: nat, j: nat)
    requires i <= j <= |s|
    requires AllSpace(s[..i]) && AllSpace(s[j..])
    requires NoOuterSpace(s[i..j])
    ensures TrimSpace(s) == s[i..j]
  {
    TrimSpaceDrops(s);
    OuterSpacesUnique(s, i, j);
  }

  lemma OuterSpacesUnique(s: string, i: nat, j: nat)
    requires i <= j <= |s|
    requires AllSpace(s[..i]) && AllSpace(s[j..])
    requires NoOuterSpace(s[i..j])
    ensures var t := s[LeadingSpaces(s)..];
            t[..|t| - TrailingSpaces(t)] == s[i..j]
  {
    if i == j {
      SpaceBefore(s, i);
      SpaceAfter(s, j);
      assert LeadingSpaces(s) == |s|;
    } else {
      assert s[i..j][0] == s[i];
      assert s[i..j][j - i - 1] == s[j - 1];
      LeadingSpacesAt(s, i);
      var t := s[i..];
      assert t[j - i - 1] == s[j - 1];
      assert t[j - i..] == s[j..];
      TrailingSpacesAt(t, j - i);
    }
  }

  /** A non-space character after an all-space prefix ends the leading space. */
  lemma LeadingSpacesAt(s: string, i: nat)
    requires i < |s| && AllSpace(s[..i]) && !IsSpace(s[i])
    ensures LeadingSpaces(s) == i
  {
    SpaceBefore(s, i);
    SpaceBefore(s, LeadingSpaces(s));
  }

  /** A non-space character before an all-space suffix ends the trailing space. */
  lemma TrailingSpacesAt(s: string, e: nat)
    requires 0 < e <= |s| && AllSpace(s[e..]) && !IsSpace(s[e - 1])
    ensures TrailingSpaces(s) == |s| - e
  {
    SpaceAfter(s, e);
    SpaceAfter(s, |s| - TrailingSpaces(s));
  }

  lemma SpaceBefore(s: string, i: nat)
    requires i <= |s| && AllSpace(s[..i])
    ensures forall k {:trigger IsSpace(s[k])} :: 0 <= k < i ==> IsSpace(s[k])
  {
    assert forall k :: 0 <= k < i ==> s[..i][k] == s[k];
  }

  lemma SpaceAfter(s: string, j: nat)
    requires j <= |s| && AllSpace(s[j..])
    ensures forall k {:trigger IsSpace(s[k])} :: j <= k < |s| ==> IsSpace(s[k])
  {
    assert forall k :: j <= k < |s| ==> s[j..][k - j] == s[k];
  }

  /** The trimmed string is found in `s`, at the returned index, with only
      white space around it. */
  lemma TrimSpaceIsInfix(s: string) returns (i: nat)
    ensures i + |TrimSpace(s)| <= |s|
    ensures s[i..i + |TrimSpace(s)|] == TrimSpace(s)
    ensures AllSpace(s[..i]) && AllSpace(s[i + |TrimSpace(s)|..])
  {
    i := LeadingSpaces(s);
    var t := s[i..];
    var n := TrailingSpaces(t);
    var e := i + |t| - n;
    assert TrimSpace(s) == s[i..e] by {
      TrimSpaceDrops(s);
    }
    assert s[e..] == t[|t| - n..];
  }

  /** Trimming is idempotent. */
  lemma TrimSpaceIdempotent(s: string)
    ensures TrimSpace(TrimSpace(s)) == TrimSpace(s)
  {
    var r := TrimSpace(s);
    TrimSpaceTrims(s);
    assert r[..0] == [] && r[|r|..] == [];
    assert r[0..|r|] == r;
    TrimSpaceUnique(r, 0, |r|);
  }

  /** A string already without outer white space is left unchanged. */
  lemma TrimSpaceNoop(s: string)
    requires NoOuterSpace(s)
    ensures TrimSpace(s) == s
  {
    assert s[..0] == [] && s[|s|..] == [];
    assert s[0..|s|] == s;
    TrimSpaceUnique(s, 0, |s|);
  }

  /** A suffix of `s` that begins and ends with non-space characters survives
      trimming as a suffix. */
  lemma TrimSpaceKeepsSuffix(s: string, w: string)
    requires |w| > 0 && NoOuterSpace(w)
    requires |w| <= |s| && s[|s| - |w|..] == w
    ensures |w| <= |TrimSpace(s)|
    ensures TrimSpace(s)[|TrimSpace(s)| - |w|..] == w
  {
    TrimSpaceDrops(s);
    var a := LeadingSpaces(s);
    var p := |s| - |w|;
    assert s[p] == w[0];
    SpaceBefore(s, a);
    assert s[|s| - 1] == w[|w| - 1];
    var t := s[a..];
    assert t[|t| - 1] == s[|s| - 1];
    assert TrailingSpaces(t) == 0;
    assert TrimSpace(s) == s[a..];
  }

  /** The escape sequence Go's `%q` writes for one character. */
  function Escape(c: char): string {
    if c == '"' then "\\\""
    else if c == '\\' then "\\\\"
    else if c == '\n' then "\\n"
    else if c == '\t' then "\\t"
    else if c == '\r' then "\\r"
    else [c]
  }

  /** The characters between the quotes of `Quote(s)`. */
  function QuoteBody(s: string): string {
    if |s| == 0 then "" else Escape(s[0]) + QuoteBody(s[1..])
  }

  /** Go's `%q` verb on a string: a double-quoted, escaped literal. */
  function Quote(s: string): (r: string)
    ensures |r| >= 2 && r[0] == '"' && r[|r| - 1] == '"'
  {
    "\"" + QuoteBody(s) + "\""
  }

  /** The character an escape letter stands for, if it is one Quote writes. */
  function Unescape(c: char): Option<char> {
    if c == '"' then Some('"')
    else if c == '\\' then Some('\\')
    else if c == 'n' then Some('\n')
    else if c == 't' then Some('\t')
    else if c == 'r' then Some('\r')
    else None
  }

  /** Reads a quoted literal's body up to its closing quote; returns the
      decoded text and what follows the closing quote. */
  function UnquoteBody(s: string): Option<(string, string)>
    decreases |s|
  {
    if |s| == 0 then None
    else if s[0] == '"' then Some(("", s[1..]))
    else if s[0] == '\\' then
      if |s| < 2 then None
      else match Unescape(s[1])
        case None => None
        case Some(c) =>
          match UnquoteBody(s[2..])
          case None => None
          case Some(p) => Some(([c] + p.0, p.1))
    else
      match UnquoteBody(s[1..])
      case None => None
      case Some(p) => Some(([s[0]] + p.0, p.1))
  }

  /** Reads a quoted literal at the start of `s`: its decoded text and the rest. */
  function Unquote(s: string): Option<(string, string)> {
    if |s| > 0 && s[0] == '"' then UnquoteBody(s[1..]) else None
  }

  /** Decoding a quoted literal gives back the original text and leaves what
      follows it untouched. */
  lemma {:induction false} UnquoteQuote(s: string, rest: string)
    ensures Unquote(Quote(s) + rest) == Some((s, rest))
  {
    assert Quote(s) + rest == "\"" + (QuoteBody(s) + "\"" + rest);
    assert (Quote(s) + rest)[1..] == QuoteBody(s) + "\"" + rest;
    UnquoteBodyQuoteBody(s, rest);
  }

  lemma {:induction false} UnquoteBodyQuoteBody(s: string, rest: string)
    ensures UnquoteBody(QuoteBody(s) + "\"" + rest) == Some((s, rest))
  {
    var x := QuoteBody(s) + "\"" + rest;
    if |s| == 0 {
      assert x == "\"" + rest;
      assert x[1..] == rest;
    } else {
      var e := Escape(s[0]);
      UnquoteBodyQuoteBody(s[1..], rest);
      assert x == e + (QuoteBody(s[1..]) + "\"" + rest);
      if |e| == 2 {
        assert x[2..] == QuoteBody(s[1..]) + "\"" + rest;
      } else {
        assert x[1..] == QuoteBody(s[1..]) + "\"" + rest;
      }
      assert [s[0]] + s[1..] == s;
    }
  }
}
