/**
 The character classification the counter uses: `iswspace` in the "C" locale
 (section 7.30.2.1.10 of ISO C11, which defers to `isspace`, section 7.4.1.10).
 In that locale exactly six characters are white space.
 */
module Whitespace {

  /** The standard white-space characters: space, horizontal tab, new-line,
      vertical tab, form feed and carriage return. */
  const StandardSpaces: set<char> := {' ', '\t', '\n', '\U{000B}', '\U{000C}', '\r'}

  /** Classification as an implementation would do it: space, or one of the
      five control characters with codes 9 through 13. */
  predicate IsSpace(c: char)
    ensures IsSpace(c) <==> c in StandardSpaces
  {
    c == ' ' || '\t' <= c <= '\r'
  }

  /** Every element of `s` is white space. */
  predicate AllSpace(s: seq<char>)
  {
    forall i :: 0 <= i < |s| ==> IsSpace(s[i])
  }
}
