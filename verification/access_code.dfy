/**
  The `AccessCode` value type: a wrapper around a raw input that is either
  absent (Ruby's `nil`) or a string, answering one question, whether the
  code is blank.
 */
module AccessCodes {
  import opened Whitespace

  /** The raw input a code is built from: `nil` or a string. */
  datatype Input = Nil | Str(s: string)

  /** A code holds its input exactly as given (the instance variable `@value`). */
  datatype AccessCode = AccessCode(value: Input)

  /** `AccessCode.new(value)`: stores the input with no coercion, trimming
      or change of case. */
  function New(value: Input): (code: AccessCode)
  {
    AccessCode(value)
  }

  /** `AccessCode#blank?`, as evidently intended: the blankness of the stored
      input.  `nil` is blank; a string is blank when it matches
      `\A[ \t\n\v\f\r]*\z` (the ASCII part of `\A[[:space:]]*\z`), which
      covers the empty string too.
      (The source reads `value`, for which no reader is defined; only
      `@value` is assigned.  See `BlankCall` and `BlankAsWrittenAlwaysRaises`
      below.) */
  function Blank(code: AccessCode): (r: bool)
    ensures r <==> code.value.Nil? || AllWhitespace(code.value.s)
    ensures !r <==> code.value.Str? && HasContent(code.value.s)
  {
    match code.value
    case Nil => true
    case Str(s) => MatchesBlankPattern(s)
  }

  /** `present?`, the negation of `blank?`. */
  function Present(code: AccessCode): (r: bool)
    ensures r <==> code.value.Str? && HasContent(code.value.s)
  {
    !Blank(code)
  }

  /** What a call to `blank?` produces in Ruby: a value, or a raised error. */
  datatype Outcome = Returned(b: bool) | Raised(error: RubyError)

  datatype RubyError = NameError(undefinedName: string)

  /** Evaluating the body of `blank?`, `value.blank?`, in a class whose
      instance methods are `methods`.  The bare identifier `value` names no
      local variable, so Ruby looks for a method of that name; when there is
      none it raises `NameError` before `blank?` is ever sent. */
  function BlankCall(methods: set<string>, code: AccessCode): (r: Outcome)
    ensures r.Returned? <==> "value" in methods
    ensures r.Returned? ==> (r.b <==> code.value.Nil? || AllWhitespace(code.value.s))
    ensures r.Raised? ==> r.error == NameError("value")
  {
    if "value" in methods then Returned(Blank(code))
    else Raised(NameError("value"))
  }

  /** The instance methods the class defines as written: only `blank?`
      (besides `initialize`); there is no `attr_reader :value`. */
  const SourceMethods: set<string> := {"blank?"}

  /** The same class with the evidently intended reader for `@value`. */
  const IntendedMethods: set<string> := SourceMethods + {"value"}

  /** As written, `blank?` never answers: every input, including the `nil`
      the first property test feeds it, ends in `NameError`, so that test's
      expectation that `AccessCode.new(nil)` is blank cannot be met. */
  lemma BlankAsWrittenAlwaysRaises(code: AccessCode)
    ensures BlankCall(SourceMethods, code) == Raised(NameError("value"))
    ensures BlankCall(SourceMethods, New(Nil)) != Returned(true)
  {
    assert "value" != "blank?";
  }

  /** With the reader in place, `blank?` answers for every input, and its
      answer is the blankness of the stored input. */
  lemma BlankWithReaderAnswers(code: AccessCode)
    ensures BlankCall(IntendedMethods, code) == Returned(code.value.Nil? || AllWhitespace(code.value.s))
  {}
}
