/** Text helpers shared by the intake and the test-info resolver: the parts of
    String.prototype.toLowerCase and String.prototype.startsWith the server uses. */
module Strings {

  /** Lower-casing of one character. Only ASCII letters are folded. */
  function LowerChar(c: char): (lc: char)
  {
    if 'A' <= c <= 'Z' then (c as int - 'A' as int + 'a' as int) as char else c
  }

  /** `s.toLowerCase()`, character by character. */
  function Lower(s: string): (r: string)
  {
    seq(|s|, i requires 0 <= i < |s| => LowerChar(s[i]))
  }

  /** `s.startsWith(prefix)`. */
  predicate StartsWith(s: string, prefix: string)
  {
    |prefix| <= |s| && s[..|prefix|] == prefix
  }
}
