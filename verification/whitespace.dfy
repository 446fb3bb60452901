/**
  Characters and strings that count as "blank" for the access code's
  blankness question.  The blank test used by `AccessCode#blank?` on a
  string asks whether every one of its characters (possibly none) is
  whitespace.  Whitespace here is the ASCII part of Ruby's `[[:space:]]`
  class; the non-ASCII spaces that class also holds are not modelled.
 */
module Whitespace {

  /** The ASCII whitespace characters: space, tab, line feed, vertical tab,
      form feed and carriage return. */
  predicate IsWhitespace(c: char) {
    c == ' ' || c == '\t' || c == '\n' || c == '\U{0B}' || c == '\U{0C}' || c == '\r'
  }

  /** Reference definition: every character of `s` is whitespace. */
  predicate AllWhitespace(s: string) {
    forall i :: 0 <= i < |s| ==> IsWhitespace(s[i])
  }

  /** True if `s` holds at least one character that is not whitespace. */
  predicate HasContent(s: string) {
    exists i :: 0 <= i < |s| && !IsWhitespace(s[i])
  }

  /** Left-to-right scan that accepts exactly the strings matching
      `\A[ \t\n\v\f\r]*\z`, the ASCII part of `\A[[:space:]]*\z`: it
      consumes whitespace characters one at a time and succeeds only when it
      reaches the end of the string. */
  function MatchesBlankPattern(s: string): (r: bool)
    ensures r <==> AllWhitespace(s)
    ensures r <==> !HasContent(s)
    ensures |s| == 0 ==> r
  {
    if |s| == 0 then true
    else if IsWhitespace(s[0]) then
      var rest := MatchesBlankPattern(s[1..]);
      assert forall i :: 1 <= i < |s| ==> s[i] == s[1..][i - 1];
      rest
    else false
  }
}
