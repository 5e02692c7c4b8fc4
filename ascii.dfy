/** The C library's character classes in the "C" locale, and lowercasing of strings. */
module Ascii {

  /** isspace: space, tab, newline, vertical tab, form feed, carriage return. */
  predicate IsSpace(c: char) {
    c == ' ' || ('\t' <= c <= '\r')
  }

  /** isdigit */
  predicate IsDigit(c: char) {
    '0' <= c <= '9'
  }

  predicate IsUpper(c: char) {
    'A' <= c <= 'Z'
  }

  /** tolower */
  function ToLower(c: char): (r: char)
    ensures !IsUpper(r)
    ensures IsUpper(c) ==> r as int == c as int + 32
    ensures !IsUpper(c) ==> r == c
  {
    if IsUpper(c) then (c as int + 32) as char else c
  }

  /** A string with no upper-case letter. */
  predicate IsLowerString(s: string) {
    forall k :: 0 <= k < |s| ==> !IsUpper(s[k])
  }

  /** The string string_to_lower leaves behind: every character passed through tolower. */
  function Lower(s: string): (r: string)
    ensures |r| == |s|
    ensures forall k :: 0 <= k < |s| ==> r[k] == ToLower(s[k])
  {
    seq(|s|, k requires 0 <= k < |s| => ToLower(s[k]))
  }

  lemma LowerIsLower(s: string)
    ensures IsLowerString(Lower(s))
  {
  }

  /** Lowercasing changes only letters, so the separators the lexer looks for survive it. */
  lemma ToLowerKeepsClass(c: char)
    ensures IsSpace(ToLower(c)) == IsSpace(c)
    ensures (ToLower(c) == ',') == (c == ',')
    ensures (ToLower(c) == ';') == (c == ';')
    ensures (ToLower(c) == '\n') == (c == '\n')
    ensures (ToLower(c) == '\0') == (c == '\0')
    ensures IsDigit(ToLower(c)) == IsDigit(c)
  {
  }

  lemma LowerIdempotent(s: string)
    ensures Lower(Lower(s)) == Lower(s)
  {
  }

  lemma LowerOfLowerString(s: string)
    requires IsLowerString(s)
    ensures Lower(s) == s
  {
  }

  lemma LowerAppend(a: string, b: string)
    ensures Lower(a + b) == Lower(a) + Lower(b)
  {
  }
}
