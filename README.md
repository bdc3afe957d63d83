# Lox scanner — a Dafny model

This project models the lexical scanner of a Go Lox interpreter (glox). The
repository holds the scanner twice:

- the current package in `scanner/`: the `Scanner` object, its `Scan` loop,
  the literal scanners `consumeString`, `digit` and `identifier`, and the
  constant tables in `scanner/constants.go`;
- an earlier draft at the repository root, `scanner.go`: the `scanner`
  object, its `ScanToken` loop and its own kind constants, which behaves
  differently in several places.

Both are modelled as written, odd behaviour included.

## Layout

- `tokens.dfy`, module `LoxTokens`: the 39 token kinds in declaration order,
  their codes (`iota + 1`), the `keywords` map, the `tokenMap` name table,
  the fixed text of each punctuation and operator kind (`Fixed`), and the
  token record (kind, lexeme, literal, line) that both scanners
  append. A literal is `Str(text)` or `Num(digits)`. The text is empty for
  punctuation, operators and EOF. For a keyword it is empty in the current
  scanner and the word itself in the draft (`DraftSamples.ExampleKeyword`).
- `records.dfy`, module `ScanRecords`: the records both specifications
  produce, `Pass` (the effect of one pass of a loop) and `Scanned` (a whole
  scan, with the offset of each lexeme), and the EOF token.
- `chars.dfy`, module `Chars`: the character classes (`isAlpha`, `isDigit`,
  `isAlphaNum` of each version) and the maximal runs and newline counts the
  scanners' loops consume. The source is a `string` whose characters stand
  for bytes, because `advance` indexes bytes and does no UTF-8 decoding.
- `scanner.dfy`, module `LoxScanner`: the specification of scanner/scanner.go
  and its `Scanner` class.
  - `Step` is one pass of `Scan`'s loop and `ScanFrom` is a whole scan. Both
    are functions returning `Outcome`: `Ok`, `Hangs` (the endless loop of
    `comment`) or `Panics` (`peekNext` indexing past the end).
  - The class has the Go fields `source`, `line`, `start`, `cursor`, `tokens`
    and `errors`. Each method is proved against the specification functions.
- `properties.dfy`, modules `ScanProperties` and `PassProperties`: what a
  whole scan produces, and lemmas about single passes.
- `draft.dfy`, module `DraftScanner`: the same for the draft: kind codes
  `iota << 1`, a total `Step`/`ScanFrom`, and the `scanner` class.
- `draft_properties.dfy`, module `DraftProperties`: properties of draft scans
  and the draft's departures from the current scanner.
- `samples.dfy`, modules `ScanSamples` and `DraftSamples`: whole scans of a
  few short sources, worked out.

Helpers are parts of the Go functions they sit in, split out so that each
proof stays small:

| helper | part of |
|---|---|
| `Dispatch` | the `switch` of each loop |
| `LoopPass` | one loop iteration |
| `OneOrTwo` | the four `=`-lookahead cases |
| `Slash` | the `/` case |
| `SkipQuoted`, `AddString` | `consumeString` |
| `SkipNumber`, `Fraction` | `digit` |
| `SkipWord`, `AddWord` | the draft `identifier` |

`Tokenize` in each module is construction from an already loaded string,
followed by the scan.

## Behaviour modelled as the code has it

In these places the current scanner departs from the usual Lox scanner
design. The model follows the code.

- There is no case for `,`: a comma is dropped like any unknown character,
  and no scan contains COMMA (`NoComma`). The draft does have the case.
- `consumeString`'s `errUnterminatedString` is discarded by the loop, and
  `addError` is never called. `Errors` is always empty (`Scan`, `Tokenize`).
- An IDENTIFIER's literal is its text, and a keyword's literal is empty
  (the draft gives a keyword its word as literal).
- The scan does not always end.
  - A `//` with no newline after it never returns: `comment` ignores
    `advance`'s end-of-input error.
  - Digits followed by a `.` that is the last character make `peekNext` index
    past the end of the source, which panics in Go.

  `Step` and `ScanFrom` say so with `Hangs` and `Panics`. `StepHangs` and
  `StepPanics` give exact conditions for each. The methods that run the loop
  require a scan that ends normally (`ScanFrom(...).Ok?`).
  `EndsWithNewline` shows one sufficient condition for that.
- `/*` consumes its two characters and nothing else; no block comment is
  skipped.

## Model

| member | source | states |
|---|---|---|
| LoxTokens.Ordinal | scanner/constants.go:7-55 | every kind has a position below 39 in the declaration |
| LoxTokens.OrdinalKindAt | scanner/constants.go:7-55 | position and kind are inverse, so the 39 positions name 39 distinct kinds |
| LoxTokens.KindAtOrdinal | scanner/constants.go:7-55 | the kind at a kind's position is that kind |
| LoxTokens.OrdinalOfKindAt | scanner/constants.go:7-55 | the position of the kind at position n is n |
| LoxTokens.KindAt | scanner/constants.go:7-55 | the kind declared at each position; `OrdinalKindAt` proves it the inverse of `Ordinal` |
| LoxTokens.Code | scanner/constants.go:9 | a kind's constant, `iota + 1`; `CodesConsecutive` and `CodeInjective` give its range and injectivity |
| LoxTokens.KindOfCode | scanner/constants.go:7-55 | the kind whose constant has a given value, none outside 1 to 39; `CodesConsecutive` proves it inverse to `Code` |
| LoxTokens.CodesConsecutive | scanner/constants.go:7-55 | codes are 1 to 39, LEFT_PAREN = 1 and EOF = 39; each code in range belongs to exactly one kind and none outside does |
| LoxTokens.CodeInjective | scanner/constants.go:9 | no kind has code 0, and distinct kinds have distinct codes |
| LoxTokens.KeywordCode | scanner/scanner.go:202-206 | `keywords[text]` is non-zero exactly for the reserved words, and then it is the code of the word's keyword kind |
| LoxTokens.KeywordWords | scanner/constants.go:57-74 | the map's keys are exactly the 16 lower-case reserved words |
| LoxTokens.KeywordKinds | scanner/constants.go:57-74 | every value in the map lies between AND and WHILE and is not IDENTIFIER, STRING, NUMBER or EOF |
| LoxTokens.KeywordKindRange | scanner/constants.go:36-52 | the 16 keyword kinds have codes between AND and WHILE |
| LoxTokens.KeywordCases | scanner/constants.go:57-74 | each key is one of the 16 words and maps to its same-named kind |
| LoxTokens.Name | scanner/constants.go:76-116 | `tokenMap` gives every kind a non-empty name, its own constant's name |
| LoxTokens.NameDistinct | scanner/constants.go:76-116 | every name in `tokenMap` leads back to its kind, so distinct kinds have distinct names |
| Chars.AlphaClasses | scanner.go:224-226 | the draft's letters are the current letters without 'A' to 'Y'; letters and digits are disjoint |
| Chars.RunEnd | scanner/scanner.go:192-199 | the end of a maximal run: every character before it is in the class, the one at it is not |
| Chars.RunEndUnique | scanner/scanner.go:192-199 | a run end is determined by those two properties |
| Chars.NewlinesSplit | scanner/scanner.go:183-185 | newline counts add up over adjacent ranges |
| LoxScanner.Scanner.constructor | scanner/scanner.go:46-52 | a fresh scanner over the source: line 1, start and cursor 0, no tokens, no errors |
| LoxScanner.Single | scanner/scanner.go:73-90 | a one-character token, its lexeme the character and its literal empty (`SingleShape`) |
| LoxScanner.Operator | scanner/scanner.go:91-114 | the two-character kind when `=` follows, else the one-character kind, so a one-character operator is never followed by `=` (`OperatorShape`, `OperatorFacts`) |
| LoxScanner.StringPass | scanner/scanner.go:174-190 | the string pass: through the next quote with the newlines inside counted, or the rest of the source and no token (`StringPassClosed`, `StringPassOpen`, `StringShape`) |
| LoxScanner.SlashPass | scanner/scanner.go:117-125 | the `/` pass: a line comment through its newline, `Hangs` without one (`StepHangs`), two characters for `/*`, else SLASH |
| LoxScanner.NumberEnd | scanner/scanner.go:147-164 | where `digit` stops: the digits, then the fraction when a digit follows the point, or none when the point is last (`NumberShape`, `PeekNextGuard`) |
| LoxScanner.WordToken | scanner/scanner.go:200-207 | the keyword kind with empty literal, or IDENTIFIER with the word (`WordTokenShape`) |
| LoxScanner.WordPass | scanner/scanner.go:126-131 | the `default` case: a maximal word, a number, `Panics` where `peekNext` reads past the end, or a dropped character (`WordShape`, `StepPanics`) |
| LoxScanner.Step | scanner/scanner.go:68-132 | one pass of the switch; the cursor moves forward within the source, and `PassFacts`, `PassShape`, `SilentPass`, `StepHangs` and `StepPanics` give the rest |
| LoxScanner.ScanFrom | scanner/scanner.go:60-135 | the whole scan: passes until the end, then EOF, or `Hangs`/`Panics` when a pass does (`ScanWellFormed`, `EndsWithNewline`) |
| LoxScanner.Scanner.Advance | scanner/scanner.go:210-217 | at the end: EOF, NUL, cursor unchanged; otherwise the character under the cursor, and the cursor moves one; in both cases the character `peek` showed before the call |
| LoxScanner.Scanner.MatchAdvance | scanner/scanner.go:219-228 | consumes the next character exactly when it exists and is the expected one, that is, when `peek` showed it before the call |
| LoxScanner.Scanner.AddToken | scanner/scanner.go:230-238 | appends one token whose lexeme is source[start..cursor] and whose line is the current counter |
| LoxScanner.Scanner.AddError | scanner/scanner.go:240-242 | appends the error |
| LoxScanner.Scanner.Comment | scanner/scanner.go:137-145 | with a newline ahead: consumes through the first newline and counts one line |
| LoxScanner.Scanner.SkipNumber | scanner/scanner.go:148-164 | the cursor stops where a number ends: digits, then a point and digits when a digit follows the point |
| LoxScanner.Scanner.Fraction | scanner/scanner.go:159-161 | consumes the maximal run of digits |
| LoxScanner.Scanner.Digit | scanner/scanner.go:147-172 | digit's effect is the number pass: one NUMBER token with the consumed text |
| LoxScanner.Scanner.SkipQuoted | scanner/scanner.go:175-186 | consumes through the closing quote, or to the end when there is none, counting the newlines before the quote |
| LoxScanner.Scanner.AddString | scanner/scanner.go:187-188 | appends STRING with the text strictly between the quotes as literal |
| LoxScanner.Scanner.ConsumeString | scanner/scanner.go:174-190 | consumeString's effect is the string pass, and an error is returned exactly when no closing quote follows |
| LoxScanner.Scanner.Identifier | scanner/scanner.go:192-208 | identifier's effect is the word pass: a maximal word, with its keyword kind or IDENTIFIER |
| LoxScanner.Scanner.Slash | scanner/scanner.go:117-125 | the `/` case: line comment, block-comment opener or SLASH, as the slash pass says |
| LoxScanner.Scanner.OneOrTwo | scanner/scanner.go:91-114 | an operator with `=` lookahead: the two-character kind when `=` follows, else the one-character kind with nothing more consumed |
| LoxScanner.Scanner.Dispatch | scanner/scanner.go:68-132 | the switch performs exactly one pass `Step` from start |
| LoxScanner.Scanner.LoopPass | scanner/scanner.go:61-133 | one iteration moves the cursor forward, keeps the tokens appended so far plus the rest of the scan equal to the whole scan, and counts the newlines consumed |
| LoxScanner.Scanner.Scan | scanner/scanner.go:60-135 | appends exactly the tokens of the whole scan, ends with start and cursor at the end of the source and the line counter raised by one per newline, and records no error, so `hasError` is unchanged |
| LoxScanner.Tokenize | scanner/scanner.go:60-135 | a fresh scanner's Scan returns the tokens of the scan from line 1 and no errors |
| LoxScanner.ScanFromStep | scanner/scanner.go:61-133 | helper: a scan that ends normally is its first pass followed by a scan that ends normally |
| LoxScanner.PeekNextGuard | scanner/scanner.go:255-260 | with the cursor on a `.` that ends a run of digits, the index `peekNext` reads is in range exactly when the number pass ends normally, and out of range exactly when the pass is `Panics` |
| LoxScanner.StringPassClosed | scanner/scanner.go:174-190 | helper: closed string: cursor after the quote, one STRING token, line counted through the inside |
| LoxScanner.StringPassOpen | scanner/scanner.go:176-178 | helper: unterminated string: the rest of the source is consumed and nothing is appended |
| LoxScanner.WordPassWord | scanner/scanner.go:192-208 | helper: the word pass appends the word's token and stops after the word |
| LoxScanner.WordPassNumber | scanner/scanner.go:147-172 | helper: the number pass appends NUMBER with the number's text |
| LoxScanner.PassFacts | scanner/scanner.go:68-132 | every pass moves forward, counts exactly the newlines it consumes, and appends at most one token, not EOF, whose lexeme is the consumed text |
| LoxScanner.OperatorFacts | scanner/scanner.go:91-114 | the same for the operator cases |
| LoxScanner.StringPassFacts | scanner/scanner.go:174-190 | the same for strings |
| LoxScanner.SlashPassFacts | scanner/scanner.go:117-125 | the same for `/` |
| LoxScanner.WordPassFacts | scanner/scanner.go:126-131 | the same for words and numbers |
| LoxScanner.NumberNewlines | scanner/scanner.go:147-164 | a number's text holds no newline |
| ScanProperties.ScanWellFormed | scanner/scanner.go:60-135 | every complete scan ends with the only EOF token at the end of the source with the final line; every token is the source slice at its offset, in order without overlap, with the line counted through its end, and shaped as its kind requires: punctuation and operators have their fixed text, `!`, `=`, `<` and `>` are never followed by `=`, `/` by `/` or `*`, words and numbers are maximal, and a number includes its fraction |
| ScanProperties.PassShape | scanner/scanner.go:68-132 | the token a pass appends has its kind's shape: fixed text for punctuation and operators, with one-character operators and SLASH maximal, and words and numbers maximal |
| ScanProperties.SingleShape | scanner/scanner.go:73-90 | punctuation other than the operators and `/`: the fixed one-character text, empty literal |
| ScanProperties.OperatorShape | scanner/scanner.go:91-114 | operators: the fixed one- or two-character text, and BANG, EQUAL, GREATER and LESS are not followed by `=` |
| ScanProperties.StringShape | scanner/scanner.go:174-190 | STRING: quoted lexeme with no quote inside, literal between the quotes |
| ScanProperties.WordShape | scanner/scanner.go:126-131 | words and numbers have their shapes: maximal words, and numerals that take every digit and the fraction after a point |
| ScanProperties.WordIsWord | scanner/scanner.go:192-199 | the consumed word starts with a letter or `_` and continues with letters, digits, `_` |
| ScanProperties.WordTokenShape | scanner/scanner.go:200-207 | a keyword gets its kind and an empty literal; another word is IDENTIFIER with its text; the word is maximal |
| ScanProperties.NumberShape | scanner/scanner.go:147-164 | a number's text is digits, optionally a point and more digits; no digit follows it, and a number without a point is not followed by a point and a digit |
| ScanProperties.NoComma | scanner/scanner.go:68-132 | no scan contains COMMA |
| PassProperties.ScanEmit | scanner/scanner.go:61-133 | helper: a pass that appends a token is followed by the rest of the scan |
| PassProperties.ScanSkip | scanner/scanner.go:61-133 | helper: a pass that appends nothing leaves the scan where it stopped |
| PassProperties.Dropped | scanner/scanner.go:69-72 | whitespace, newline, `,` and every character without a case are dropped; only the newline counts |
| PassProperties.SilentPass | scanner/scanner.go:68-132 | a pass that ends normally appends nothing exactly when its character has no case and is no letter or digit, or it is `//` or `/*`, or an unterminated string; every other pass appends a token |
| PassProperties.BlockCommentOpen | scanner/scanner.go:121-123 | `/*` consumes two characters and nothing more |
| PassProperties.LineComment | scanner/scanner.go:137-145 | `//` skips through the first newline after it and counts that line |
| PassProperties.StepHangs | scanner/scanner.go:137-145 | a pass never returns exactly when it is `//` with no newline after it |
| PassProperties.StepPanics | scanner/scanner.go:255-260 | a pass panics exactly when it starts digits that run up to a final `.` |
| PassProperties.EndsWithNewline | scanner/scanner.go:60-135 | a source that is empty or ends with a newline always scans to its end |
| PassProperties.StringLiteral | scanner/scanner.go:174-190 | a closed string gives one STRING token with both quotes in the lexeme, the inside as literal and the line after the inside |
| PassProperties.UnterminatedString | scanner/scanner.go:174-179 | an unterminated string leaves only EOF, after counting the newlines inside |
| ScanSamples.ExampleOperator | scanner/scanner.go:97-102 | `!= b` gives BANG_EQUAL, IDENTIFIER b, EOF |
| ScanSamples.ExampleString | scanner/scanner.go:174-190 | a string spanning a newline carries the line it ends on |
| ScanSamples.ExampleWord | scanner/scanner.go:192-208 | `whilee` is an IDENTIFIER |
| ScanSamples.ExampleKeyword | scanner/scanner.go:192-208 | `while` is WHILE with an empty literal |
| ScanSamples.ExamplePanic | scanner/scanner.go:255-260 | `123.` panics |
| ScanSamples.ExampleHang | scanner/scanner.go:137-145 | `//` never returns |
| ScanSamples.ExampleFraction | scanner/scanner.go:157-161 | `1.5` is one NUMBER `1.5` |
| ScanSamples.ExampleEqualEqual | scanner/scanner.go:91-96 | `==` is one EQUAL_EQUAL, not two EQUALs |
| ScanSamples.ExamplePunctuation | scanner/scanner.go:73-96 | `(=` gives LEFT_PAREN, EQUAL, EOF |
| DraftScanner.DraftCodes | scanner.go:13-61 | draft codes are the even numbers 0 to 76, LEFT_PAREN 0 and EOF 76, each the code of one kind |
| DraftScanner.DraftKeywordCode | scanner.go:217 | the draft lookup is non-zero exactly for reserved words, although LEFT_PAREN is 0, and then gives the word's kind |
| DraftScanner.DraftCode | scanner.go:13-61 | a kind's draft constant, `iota << 1`; `DraftCodes` gives its range and injectivity |
| DraftScanner.DraftKindOfCode | scanner.go:13-61 | the kind whose draft constant has a given value; `DraftCodes` proves it inverse to `DraftCode` |
| DraftScanner.Single | scanner.go:144-163 | a one-character token with an empty literal, COMMA included (`CommaToken`) |
| DraftScanner.Operator | scanner.go:164-187 | the two-character kind when `=` follows, else the one-character kind, so a one-character operator is never followed by `=` (`OperatorFacts`, `ScanLaid`) |
| DraftScanner.StringPass | scanner.go:236-248 | the draft string pass: the literal keeps the opening quote, newlines are not counted, and an unterminated string swallows the rest of the source and appends nothing (`StringClosed`, `StringKeepsQuote`, `UnterminatedString`) |
| DraftScanner.SlashPass | scanner.go:188-193 | SLASH, or the draft comment: the newlines after `//`, then one character (`CommentSkipsOneCharacter`) |
| DraftScanner.WordToken | scanner.go:215-220 | the keyword kind or IDENTIFIER, the word as literal and the word plus terminator as lexeme (`SwallowsTerminator`) |
| DraftScanner.WordPass | scanner.go:196-222 | the draft `default` case: a word that swallows its terminator, nothing for a word at the end, a dropped character otherwise (`WordAtEndLost`, `DigitsAndCapitalsDropped`) |
| DraftScanner.Step | scanner.go:139-200 | one pass of the draft switch; the cursor moves forward within the source, and `StepFacts`, `SilentPass` and `FixedPass` give the rest |
| DraftScanner.ScanFrom | scanner.go:129-203 | the whole draft scan, total because every pass moves forward (`ScanLaid`, `FinalLineBound`) |
| DraftScanner.Scanner.constructor | scanner.go:121-126 | a fresh draft scanner: line 0, start and cursor 0, no tokens |
| DraftScanner.Scanner.Advance | scanner.go:292-299 | as the current scanner's advance: the character `peek` showed, or NUL and EOF at the end |
| DraftScanner.Scanner.MatchAdvance | scanner.go:263-269 | consumes the next character exactly when the input has not ended and `peek` shows the expected one |
| DraftScanner.Scanner.AddToken | scanner.go:282-290 | appends one token with lexeme source[start..cursor] and the text literal |
| DraftScanner.Scanner.Comment | scanner.go:250-261 | consumes the run of newlines without counting them, then one more character; EOF is returned exactly when the run reaches the end |
| DraftScanner.Scanner.ConsumeString | scanner.go:236-248 | the draft string pass, with an error exactly when no closing quote follows |
| DraftScanner.Scanner.SkipWord | scanner.go:206-214 | consumes the word and the character after it, or everything when the word reaches the end |
| DraftScanner.Scanner.AddWord | scanner.go:215-220 | appends the keyword kind or IDENTIFIER, with the word as literal and the word plus its terminator as lexeme |
| DraftScanner.Scanner.Identifier | scanner.go:205-222 | the draft word pass, with EOF returned exactly when the word reaches the end |
| DraftScanner.Scanner.OneOrTwo | scanner.go:164-187 | the operator cases, as in the current scanner |
| DraftScanner.Scanner.Slash | scanner.go:188-193 | the `/` case: SLASH or the draft comment |
| DraftScanner.Scanner.Dispatch | scanner.go:139-200 | the switch performs exactly one draft pass |
| DraftScanner.Scanner.LoopPass | scanner.go:130-201 | one iteration keeps the tokens so far plus the rest of the scan equal to the whole scan |
| DraftScanner.Scanner.ScanToken | scanner.go:129-203 | appends exactly the tokens of the whole draft scan and ends with start and cursor at the end of the source and the line counter equal to the line of the final EOF token |
| DraftScanner.Tokenize | scanner.go:129-203 | a fresh draft scanner's ScanToken returns the scan from line 0 |
| DraftScanner.StringClosed | scanner.go:242-245 | helper: a closed draft string: the literal runs from the opening quote to before the closing one |
| DraftScanner.WordClosed | scanner.go:205-222 | helper: a closed draft word: the lexeme includes the terminator |
| DraftProperties.ScanLaid | scanner.go:129-203 | every draft scan ends with the only EOF token, empty and at the end of the source; every token is the source slice at its offset, in order without overlap; punctuation and operators have their fixed text and an empty literal, `!`, `=`, `<` and `>` are never followed by `=`, and `/` never by `/` |
| DraftProperties.StepFacts | scanner.go:139-200 | a draft pass appends at most one token, not EOF, whose lexeme is the consumed text, whose line is the counter at the start of the pass, and which has its fixed form when it is punctuation or an operator; it counts a line only in the newline case |
| DraftProperties.FinalLineBound | scanner.go:142-143 | the final line lies between the start and the start plus the source's newlines, missing those in strings, after `//` and swallowed as a word's terminator |
| DraftProperties.CommaToken | scanner.go:158-159 | `,` gives COMMA |
| DraftProperties.StepDefault | scanner.go:196-199 | helper: letters, digits and `_` reach the default case |
| DraftProperties.SwallowsTerminator | scanner.go:205-222 | a word's token includes the character after it, and the scan goes on after that character |
| DraftProperties.WordAtEndLost | scanner.go:206-210 | a word that reaches the end of the source yields no token |
| DraftProperties.DigitsAndCapitalsDropped | scanner.go:196-199 | digits and 'A' to 'Y' are dropped |
| DraftProperties.CommentSkipsOneCharacter | scanner.go:250-261 | after `//` and a non-newline, only that character is skipped |
| DraftProperties.SilentPass | scanner.go:139-200 | a draft pass appends nothing exactly when its character has no case and is not a draft letter, or it is `//`, an unterminated string, or a word that runs to the end; every other pass appends a token |
| DraftProperties.FixedPass | scanner.go:144-193 | a punctuation or operator character, `//` aside, yields one token whose lexeme is its kind's fixed text and begins with that character |
| DraftProperties.UnterminatedString | scanner.go:236-241 | an unterminated string leaves only EOF, on the line where it began |
| DraftProperties.StringKeepsQuote | scanner.go:236-248 | a string's literal keeps the opening quote, and its line ignores the newlines inside |
| DraftSamples.ExampleSwallow | scanner.go:205-222 | `a(` gives IDENTIFIER with lexeme `a(` and literal `a` |
| DraftSamples.ExampleKeyword | scanner.go:215-220 | `or ` gives OR with literal `or` |
| DraftSamples.ExampleLostWord | scanner.go:206-210 | `ab` gives only EOF |
| DraftSamples.ExampleComment | scanner.go:250-261 | `//x+` gives PLUS |
| DraftSamples.ExampleComma | scanner.go:158-159 | `,(` gives COMMA, LEFT_PAREN |
| DraftSamples.ExampleString | scanner.go:236-248 | `"a\nb"` gives a literal starting with the quote, on line 0 |

## Left out

- `NewScanner` (both versions) reads a file through `filepath.Abs`, `os.Open`
  and `io.ReadAll`. This is I/O, so the constructors take the loaded string.
  They start at line 1 in the current scanner and line 0 in the draft.
- `strconv.ParseFloat` in `digit` is floating point. A NUMBER's literal is
  `Num` of its digits. In Go, a numeral too large for a float64 makes
  `ParseFloat` fail, so `digit` appends no token. The model does not capture
  this: it always appends the token.
- `Token.String` and `token.String` are `fmt` formatting only.
- `scanner/scanner_test.go` and `scanner_test.go` read a fixture file and
  print.
- The text of the error values; `errUnterminatedString` is the tag
  `UnterminatedString`.
- UTF-8: characters stand for bytes; no decoding and no multi-byte runes.
- Go's `rune(0)` return values are modelled as the character NUL.
- LoxScanner.Scanner.PeekNext: the call that indexes past the end (cursor on
  the last character) is excluded by its precondition. The panic it causes
  is modelled as `Panics` in `NumberEnd` and `WordPass`, and `PeekNextGuard`
  ties the two together.
- LoxScanner.Scanner.Comment: its precondition requires a newline ahead. The
  endless loop without one is modelled as `Hangs` in `SlashPass`.
- LoxScanner.Scanner.Scan, LoxScanner.Tokenize: they require a scan that
  ends normally. A scan that hangs or panics is described by `ScanFrom` and
  the lemmas about it, not by a method run.
- LoxScanner.Scanner.SkipNumber, LoxScanner.Scanner.Digit,
  LoxScanner.Scanner.Slash, LoxScanner.Scanner.Dispatch,
  LoxScanner.Scanner.LoopPass: like `Scan`, they require the pass they run to
  end normally (`NumberEnd(...).Some?`, `SlashPass(...).Ok?`, `Step(...).Ok?`,
  `ScanFrom(...).Ok?`); the hang and the panic are in the functions only.
- `isAtEnd`, `isAlpha`, `isDigit` and `isAlphaNum` are predicates with no
  contract of their own; the loops and lemmas above use them.
- `peek` (both versions), `peekNext` and `hasError` are accessors whose
  contracts only define them, so they have no row above. What callers rely
  on is stated where they are used: `Advance` and `MatchAdvance` in terms of
  `old(Peek())`, `PeekNextGuard`, and `Scan`'s clause on `HasError`.
