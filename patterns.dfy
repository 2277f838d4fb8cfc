// The part of Go's regexp (RE2) that the host's patterns use. A pattern is a
// shell glob whose '*' has been rewritten to ".*", so a compiled pattern is a
// sequence of three kinds of atoms: a literal character, '.', and ".*".
// Neither '.' nor ".*" matches a newline (RE2 without the s flag), and
// MatchString is unanchored: it looks for a match anywhere in the text.

module Patterns {

  datatype Atom = Lit(c: char) | AnyChar | AnyRun

  type Regexp = seq<Atom>

  /** regexp.MustCompile on the fragment: ".*" is one atom, a lone '.' another,
      every other character stands for itself. */
  function Compile(src: string): (re: Regexp)
    ensures |re| <= |src|
    ensures src == [] <==> re == []
  {
    if src == [] then []
    else if src[0] == '.' && |src| > 1 && src[1] == '*' then [AnyRun] + Compile(src[2..])
    else if src[0] == '.' then [AnyChar] + Compile(src[1..])
    else [Lit(src[0])] + Compile(src[1..])
  }

  /** The atoms match some prefix of the text. */
  predicate MatchPrefix(re: Regexp, text: string)
    decreases |re|, |text|
  {
    if re == [] then true
    else match re[0]
      case Lit(c) => |text| > 0 && text[0] == c && MatchPrefix(re[1..], text[1..])
      case AnyChar => |text| > 0 && text[0] != '\n' && MatchPrefix(re[1..], text[1..])
      case AnyRun =>
        MatchPrefix(re[1..], text) || (|text| > 0 && text[0] != '\n' && MatchPrefix(re, text[1..]))
  }

  /** (*regexp.Regexp).MatchString: the atoms match somewhere in the text. */
  predicate MatchString(re: Regexp, text: string)
    ensures MatchString(re, text) <==> exists k :: 0 <= k <= |text| && MatchPrefix(re, text[k..])
    decreases |text|
  {
    assert text[0..] == text;
    if |text| > 0 then
      LaterStarts(re, text);
      MatchPrefix(re, text) || MatchString(re, text[1..])
    else
      MatchPrefix(re, text)
  }

  /** A match starting after the first character is a match in the tail. */
  lemma LaterStarts(re: Regexp, text: string)
    requires |text| > 0
    ensures (exists k :: 1 <= k <= |text| && MatchPrefix(re, text[k..]))
        <==> (exists k :: 0 <= k <= |text[1..]| && MatchPrefix(re, text[1..][k..]))
  {
    if k :| 1 <= k <= |text| && MatchPrefix(re, text[k..]) {
      assert text[1..][k - 1..] == text[k..];
    }
    if k :| 0 <= k <= |text[1..]| && MatchPrefix(re, text[1..][k..]) {
      assert text[1..][k..] == text[k + 1..];
    }
  }

  /** A pattern that starts with the literal c matches only texts holding c. */
  lemma {:induction false} PrefixNeedsFirst(c: char, re: Regexp, text: string)
    requires |re| > 0 && re[0] == Lit(c)
    requires MatchPrefix(re, text)
    ensures |text| > 0 && text[0] == c
  {
  }

  lemma {:induction false} MatchNeedsFirst(c: char, re: Regexp, text: string)
    requires |re| > 0 && re[0] == Lit(c)
    requires MatchString(re, text)
    ensures c in text
    decreases |text|
  {
    if MatchPrefix(re, text) {
      PrefixNeedsFirst(c, re, text);
    } else {
      MatchNeedsFirst(c, re, text[1..]);
      assert c in text[1..];
    }
  }

  /** A pattern of literals only matches exactly the texts that contain it. */
  lemma {:induction false} LiteralPrefix(w: string, text: string)
    ensures MatchPrefix(Literal(w), text) <==> (|w| <= |text| && text[..|w|] == w)
  {
    if w != [] {
      assert Literal(w)[1..] == Literal(w[1..]);
      if |text| > 0 {
        LiteralPrefix(w[1..], text[1..]);
        if |w| <= |text| && text[..|w|] == w {
          assert text[1..][..|w| - 1] == w[1..];
        }
        if |w| <= |text| && text[0] == w[0] && text[1..][..|w| - 1] == w[1..] {
          assert text[..|w|] == [text[0]] + text[1..][..|w| - 1];
        }
      }
    }
  }

  /** The atoms of a pattern made of literal characters only. */
  function Literal(w: string): (re: Regexp)
    ensures |re| == |w|
    ensures forall i :: 0 <= i < |w| ==> re[i] == Lit(w[i])
  {
    if w == [] then [] else [Lit(w[0])] + Literal(w[1..])
  }
}
