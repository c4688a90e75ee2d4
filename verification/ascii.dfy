/** Upper-casing of the LOG_LEVEL value before it is looked up.

    logger.go upper-cases with Go's Unicode-aware string upper-casing. This
    module models the part of that mapping that can influence which level is
    selected: the ASCII letters a-z, and the two non-ASCII letters whose upper
    case is an ASCII letter (dotless i and long s). Every other character is
    kept as it is. */
module Ascii {

  predicate IsLower(c: char) {
    'a' <= c <= 'z'
  }

  predicate IsUpper(c: char) {
    'A' <= c <= 'Z'
  }

  /** U+0131 LATIN SMALL LETTER DOTLESS I, whose upper case is 'I'. */
  const DotlessI: char := '\U{0131}'

  /** U+017F LATIN SMALL LETTER LONG S, whose upper case is 'S'. */
  const LongS: char := '\U{017F}'

  /** The upper case of one character. */
  function UpperChar(c: char): (u: char)
    ensures !IsLower(u)
    ensures u != c ==> IsUpper(u)
    ensures IsLower(c) ==> IsUpper(u) && u as int + 32 == c as int
    ensures c == DotlessI ==> u == 'I'
    ensures c == LongS ==> u == 'S'
    ensures !IsLower(c) && c != DotlessI && c != LongS ==> u == c
  {
    if IsLower(c) then (c as int - 32) as char
    else if c == DotlessI then 'I'
    else if c == LongS then 'S'
    else c
  }

  /** Upper-cases every character of `s` in place: the result has the same
      length, no lower-case ASCII letter; a-z, dotless i and long s become
      their ASCII capitals and every other character is kept. */
  function ToUpper(s: string): (r: string)
    ensures |r| == |s|
    ensures forall i :: 0 <= i < |r| ==> !IsLower(r[i])
    ensures forall i :: 0 <= i < |r| && r[i] != s[i] ==> IsUpper(r[i])
    ensures forall i :: 0 <= i < |s| && IsLower(s[i]) ==> r[i] as int + 32 == s[i] as int
    ensures forall i :: 0 <= i < |s| && s[i] == DotlessI ==> r[i] == 'I'
    ensures forall i :: 0 <= i < |s| && s[i] == LongS ==> r[i] == 'S'
    ensures forall i :: 0 <= i < |s| && !IsLower(s[i]) && s[i] != DotlessI && s[i] != LongS ==> r[i] == s[i]
  {
    seq(|s|, i requires 0 <= i < |s| => UpperChar(s[i]))
  }

  lemma UpperCharIdempotent(c: char)
    ensures UpperChar(UpperChar(c)) == UpperChar(c)
  {
  }

  /** Upper-casing twice is the same as upper-casing once. */
  lemma ToUpperIdempotent(s: string)
    ensures ToUpper(ToUpper(s)) == ToUpper(s)
  {
    forall i | 0 <= i < |s| {
      UpperCharIdempotent(s[i]);
    }
  }

  /** A string that is already in upper case (no lower-case ASCII letter,
      no dotless i, no long s) is left unchanged. */
  lemma ToUpperFixesUpperCase(s: string)
    requires forall i :: 0 <= i < |s| ==> !IsLower(s[i]) && s[i] != DotlessI && s[i] != LongS
    ensures ToUpper(s) == s
  {
  }

  /** `t` is the upper case of `s` when it is so character by character. */
  lemma ToUpperPointwise(s: string, t: string)
    requires |s| == |t|
    requires forall i :: 0 <= i < |s| ==> UpperChar(s[i]) == t[i]
    ensures ToUpper(s) == t
  {
  }
}
