/**
  The properties the repository's property tests state of `AccessCode`,
  generalised from their generators to every input of the same kind.
 */
module AccessCodeProperties {
  import opened Whitespace
  import opened AccessCodes

  /** Construction keeps the input exactly as given: the stored value is
      the argument, and construction is injective: different inputs give
      different stored values (nothing is trimmed, lower-cased or otherwise
      collapsed). */
  lemma NewKeepsInput(a: Input, b: Input)
    ensures New(a).value == a
    ensures New(a) == New(b) <==> a == b
  {}

  /** The values the `empty_value` generator draws from. */
  const EmptyValues: seq<Input> := [Nil, Str(""), Str("\n"), Str("      ")]

  /** "is blank for all empty values": every value `empty_value` yields
      gives a blank code. */
  lemma EmptyValuesAreBlank()
    ensures forall i :: 0 <= i < |EmptyValues| ==> Blank(New(EmptyValues[i]))
  {
    assert AllWhitespace("\n");
    assert AllWhitespace("      ");
  }

  /** A code built from `nil` is blank. */
  lemma NilIsBlank()
    ensures Blank(New(Nil))
  {}

  /** A code built from the empty string is blank. */
  lemma EmptyStringIsBlank()
    ensures Blank(New(Str("")))
  {}

  /** Generalisation of the lone newline and six spaces: any string made
      only of whitespace gives a blank code, and only such strings do. */
  lemma WhitespaceOnlyIsBlank(s: string)
    ensures Blank(New(Str(s))) <==> forall c :: c in s ==> IsWhitespace(c)
  {}

  /** Generalisation of `present_string`: any string holding a character
      that is not whitespace gives a code that is not blank. */
  lemma ContentIsNotBlank(s: string, i: nat)
    requires i < |s| && !IsWhitespace(s[i])
    ensures !Blank(New(Str(s)))
    ensures Present(New(Str(s)))
  {}

  /** The characters `alphanumeric_string` draws from: ASCII letters and digits. */
  predicate IsAlphanumeric(c: char) {
    ('a' <= c <= 'z') || ('A' <= c <= 'Z') || ('0' <= c <= '9')
  }

  lemma AlphanumericIsNotWhitespace(c: char)
    requires IsAlphanumeric(c)
    ensures !IsWhitespace(c)
  {}

  /** `alphanumeric_string.where(&:present?)`: an alphanumeric string is
      present exactly when it is non-empty, so every string the generator
      keeps gives a code that is not blank. */
  lemma PresentAlphanumeric(s: string)
    requires forall i :: 0 <= i < |s| ==> IsAlphanumeric(s[i])
    ensures Present(New(Str(s))) <==> |s| > 0
    ensures |s| > 0 ==> !Blank(New(Str(s)))
  {
    if |s| > 0 {
      AlphanumericIsNotWhitespace(s[0]);
      ContentIsNotBlank(s, 0);
    }
  }

  /** Blank and present partition all inputs: for every input exactly one
      holds, and which one is decided by the input alone — `nil` and
      all-whitespace strings on one side, strings with content on the other. */
  lemma BlankPresentPartition(v: Input)
    ensures Blank(New(v)) != Present(New(v))
    ensures Blank(New(v)) <==> v == Nil || forall c :: c in v.s ==> IsWhitespace(c)
    ensures Present(New(v)) <==> v.Str? && exists c :: c in v.s && !IsWhitespace(c)
  {
    if v.Str? && !Blank(New(v)) {
      var i :| 0 <= i < |v.s| && !IsWhitespace(v.s[i]);
      assert v.s[i] in v.s;
    }
  }
}
