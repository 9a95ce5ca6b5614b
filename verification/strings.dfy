/** String helpers the workspace applies to file names, chat drafts and
    e-mail addresses. Strings are sequences of characters. */
module Strings {

  /** Lower-cases one character. Only the ASCII letters are mapped; every
      other character is left as it is. */
  function LowerChar(c: char): (r: char)
    ensures 'A' <= c <= 'Z' ==> 'a' <= r <= 'z' && r as int - c as int == 32
    ensures !('A' <= c <= 'Z') ==> r == c
    ensures !('A' <= r <= 'Z')
  {
    if 'A' <= c <= 'Z' then (c as int + 32) as char else c
  }

  /** `s.toLowerCase()`, on ASCII letters. */
  function Lower(s: string): (r: string)
    ensures |r| == |s|
    ensures forall i :: 0 <= i < |s| ==> r[i] == LowerChar(s[i])
  {
    seq(|s|, i requires 0 <= i < |s| => LowerChar(s[i]))
  }

  /** Lower-casing a lower-cased string changes nothing. */
  lemma LowerIdempotent(s: string)
    ensures Lower(Lower(s)) == Lower(s)
  {
  }

  /** The character that `split('.')` cuts on. */
  const Dot: char := '.'

  /** `s.split('.').pop()`: the text after the last dot, or all of `s` when
      it holds no dot. */
  function AfterLastDot(s: string): (r: string)
    decreases |s|
  {
    if |s| == 0 then ""
    else if s[|s| - 1] == Dot then ""
    else AfterLastDot(s[..|s| - 1]) + [s[|s| - 1]]
  }

  /** The text after the last dot is the longest dot-free suffix of `s`:
      it is a suffix, it holds no dot, and it is either all of `s` or
      preceded by a dot. */
  lemma {:induction false} AfterLastDotIsLastSegment(s: string)
    ensures var r := AfterLastDot(s);
      && |r| <= |s|
      && r == s[|s| - |r|..]
      && Dot !in r
      && (|r| == |s| || s[|s| - |r| - 1] == Dot)
    decreases |s|
  {
    if |s| == 0 {
    } else if s[|s| - 1] == Dot {
    } else {
      var p := s[..|s| - 1];
      AfterLastDotIsLastSegment(p);
      var q := AfterLastDot(p);
      assert AfterLastDot(s) == q + [s[|s| - 1]];
      assert p[|p| - |q|..] + [s[|s| - 1]] == s[|s| - |q| - 1..];
    }
  }

  /** A name without a dot is its own last segment. */
  lemma {:induction false} AfterLastDotNoDot(s: string)
    requires Dot !in s
    ensures AfterLastDot(s) == s
    decreases |s|
  {
    if |s| > 0 {
      assert Dot !in s[..|s| - 1];
      AfterLastDotNoDot(s[..|s| - 1]);
    }
  }

  /** Whatever comes before the last dot does not affect the segment. */
  lemma {:induction false} AfterLastDotOfSuffix(prefix: string, name: string)
    requires Dot !in name
    ensures AfterLastDot(prefix + [Dot] + name) == name
    decreases |name|
  {
    if |name| == 0 {
      assert prefix + [Dot] + name == prefix + [Dot];
    } else {
      var s := prefix + [Dot] + name;
      assert s[..|s| - 1] == prefix + [Dot] + name[..|name| - 1];
      assert Dot !in name[..|name| - 1];
      AfterLastDotOfSuffix(prefix, name[..|name| - 1]);
      assert name == name[..|name| - 1] + [name[|name| - 1]];
    }
  }

  /** `needle` occurs in `haystack` starting at index `i`. */
  predicate OccursAt(haystack: string, needle: string, i: int)
  {
    0 <= i <= |haystack| - |needle| && haystack[i..i + |needle|] == needle
  }

  /** `haystack.includes(needle)`. */
  predicate Contains(haystack: string, needle: string)
  {
    exists i | 0 <= i <= |haystack| - |needle| :: OccursAt(haystack, needle, i)
  }

  /** Every string contains the empty string. */
  lemma ContainsEmpty(s: string)
    ensures Contains(s, "")
  {
    assert OccursAt(s, "", 0);
  }

  /** `s.startsWith(prefix)`. */
  predicate StartsWith(s: string, prefix: string)
  {
    |prefix| <= |s| && s[..|prefix|] == prefix
  }

  /** The characters `String.prototype.trim` removes: the WhiteSpace and
      LineTerminator code points of ECMAScript (sections 12.2 and 12.3). */
  predicate IsJsWhitespace(c: char)
  {
    || c == ' ' || c == '\t' || c == '\n' || c == '\r'
    || c == '\U{000B}' || c == '\U{000C}' || c == '\U{00A0}' || c == '\U{FEFF}'
    || c == '\U{1680}' || ('\U{2000}' <= c <= '\U{200A}')
    || c == '\U{2028}' || c == '\U{2029}' || c == '\U{202F}'
    || c == '\U{205F}' || c == '\U{3000}'
  }

  /** `s.trim()` is the empty string, that is, `s.trim()` is falsy. */
  predicate Blank(s: string)
  {
    forall i :: 0 <= i < |s| ==> IsJsWhitespace(s[i])
  }
}
