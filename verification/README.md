# AccessCode blankness model

A Dafny model of the `AccessCode` value type of `access_code.rb`. An access
code wraps a raw input, which is either absent (Ruby's `nil`) or a string,
and answers one question: is the code blank? A code is blank when its input
is `nil`, the empty string, or a string made only of whitespace; otherwise
it is present.

- `whitespace.dfy` (module `Whitespace`): the whitespace characters, a
  reference definition of an all-whitespace string, and the left-to-right
  scan `MatchesBlankPattern` that models the string blank test as a match of
  `\A[ \t\n\v\f\r]*\z` (the ASCII part of `\A[[:space:]]*\z`), proved to
  agree with the reference definition.
- `access_code.dfy` (module `AccessCodes`): `Input = Nil | Str(s)`,
  `AccessCode(value)`, construction `New`, `Blank` (`blank?`) and `Present`
  (`present?`), and the behaviour of `blank?` as written (see Findings).
- `properties.dfy` (module `AccessCodeProperties`): the two property tests
  generalised from their generators to every input of the same kind, plus the
  construction and partition properties.

## Model

| member | source | states |
|---|---|---|
| AccessCodes.Blank | access_code.rb:19-21 | a code is blank exactly when its input is `nil` or every character of its string is whitespace, and not blank exactly when it is a string with a non-whitespace character |
| Whitespace.MatchesBlankPattern | access_code.rb:20 | the character-by-character scan standing for the blank test on a string accepts exactly the all-whitespace strings (the empty string included) and rejects exactly those with content |
| AccessCodes.Present | access_code.rb:41 | `present?` holds exactly when the input is a string containing some non-whitespace character |
| AccessCodeProperties.NewKeepsInput | access_code.rb:15-17 | construction stores the argument unchanged, and construction is injective: different inputs give different stored values (no trimming or case change collapses inputs) |
| AccessCodeProperties.EmptyValuesAreBlank | access_code.rb:28-32 | every value the `empty_value` generator yields (`nil`, `""`, `"\n"`, six spaces) gives a blank code |
| AccessCodeProperties.NilIsBlank | access_code.rb:45 | a code built from `nil` is blank |
| AccessCodeProperties.EmptyStringIsBlank | access_code.rb:45 | a code built from `""` is blank |
| AccessCodeProperties.WhitespaceOnlyIsBlank | access_code.rb:45 | a string input gives a blank code if and only if every character in it is whitespace |
| AccessCodeProperties.ContentIsNotBlank | access_code.rb:34-38 | any string with at least one non-whitespace character gives a code that is not blank and is present |
| AccessCodeProperties.PresentAlphanumeric | access_code.rb:40-42 | an alphanumeric string is present if and only if it is non-empty, so every string `present_string` keeps gives a non-blank code |
| AccessCodeProperties.BlankPresentPartition | access_code.rb:19-21 | for every input exactly one of blank and present holds; blank iff `nil` or all characters whitespace, present iff a string holding a non-whitespace character |
| AccessCodes.BlankCall | access_code.rb:19-21 | evaluating `value.blank?` returns a value exactly when the class defines the reader `value` for `@value`, and then returns true iff the input is `nil` or all whitespace; otherwise it raises `NameError` naming `value` |
| AccessCodes.BlankAsWrittenAlwaysRaises | access_code.rb:19-21 | as written, evaluating `blank?` raises `NameError` for `value` on every code, so `AccessCode.new(nil)` is never reported blank |
| AccessCodes.BlankWithReaderAnswers | access_code.rb:16-20 | with a reader for `@value`, `blank?` returns for every code, and returns true exactly when the input is `nil` or all whitespace |

## Left out

- The Bundler `gemfile` block and the `require` lines (access_code.rb:1-12): dependency loading, no logic.
- The RSpec and PropCheck harness and its generators (access_code.rb:24-47): used only as the source of the properties above; generators are represented by the values or the character class they draw from.
- ActiveSupport's `blank?` on objects other than `nil` and strings (`false`, arrays, hashes, objects answering `empty?`): the class is only ever given `nil` or strings, so the input domain is `Nil | Str`.
- Whitespace.IsWhitespace: covers the ASCII whitespace characters (space, tab, line feed, vertical tab, form feed, carriage return) only, not the full Unicode `[[:space:]]` class, because ActiveSupport's character class is not part of this model. So `Whitespace.MatchesBlankPattern` and `AccessCodes.Blank` report strings such as `"\u00A0"` or `"\u3000"` as not blank, where ActiveSupport reports them blank (U+0085, U+00A0, U+1680, U+2000 to U+200A, U+2028, U+2029, U+202F, U+205F, U+3000).
- Inputs are modelled as Unicode text (a Dafny `string` is a sequence of Unicode scalar values). Ruby strings with invalid byte sequences or in non-UTF-8 encodings are not modelled, and neither is the `ArgumentError` that the blank test raises on an invalid byte sequence.
- The class defines no lower-casing, equality, comparison or hash method (access_code.rb:14-22), so none is modelled.
- An `AccessCode` is modelled as an immutable value, so Ruby's inherited identity equality (`Object#==`, under which two codes built from the same input are different objects) is not modelled; Dafny's `==` on codes is structural.
- "Asking `blank?` does not change the code" and "codes built from equal inputs have the same blankness" hold structurally: codes are immutable Dafny values with a single field, and `Blank` is a pure function of that field, so no separate contract states them.

## Findings

| source | as written | input that shows it | evidently intended | confidence | as-written member | corrected member |
|---|---|---|---|---|---|---|
| access_code.rb:20 | `blank?` calls `value`, but the class defines no `value` method (only `@value` is assigned at line 16), so the call raises `NameError` | `AccessCode.new(nil).blank?` | `@value.blank?` (or an `attr_reader :value`), so blankness is that of the stored input | high; not executed | AccessCodes.BlankAsWrittenAlwaysRaises | AccessCodes.BlankWithReaderAnswers |
