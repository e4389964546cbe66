# go-json-parser tokenizer, modelled in Dafny

This project models the tokenizer package of go-json-parser, a JSON
deserializer in Go whose tokenizer so far contains only the scanning cursor
and the token-kind enumeration.

- `tokens.dfy`, module `Tokens` (tokenizer/token.go): the `TokenType`
  integer type with its ten constants `ObjectStart` .. `Null` (values 0 to 9),
  the `Token` record (a value and a kind, nothing else), and `Name`,
  the model of `TokenType.String()`. Two quirks of the source are kept:
  `ArrayEnd` has no case and is named "Unknown", and `Number` is named
  "number" in lower case.
- `lexer.dfy`, module `Lexer` (tokenizer/tokenizer.go): the class
  `Tokenizer` with the fields `input` (bytes), `position` and `currentChar`,
  its constructor (`NewTokenizer`) and the methods `MoveNext`,
  `SkipWhitespace` and `GetNextToken`. The class invariant `Valid()` says
  that `currentChar` is the byte at `position`, or 0 past the end.
  `SkipWhitespace` is specified by the function `WhitespaceEnd` and
  `GetNextToken` by the function `ScanEnd`. Both are proved against those
  functions. The properties of the functions are proved separately.

What the model shows about `GetNextToken`: the loop always terminates, and
it never returns a token or an error. It stops exactly at the end of the
input, or one byte past it when the input ends in a space, tab or newline.
In that case the last whitespace skip reaches the end, and the following
`moveNext` steps beyond it. A cursor already at or past the end is not
moved.

The comment at tokenizer/tokenizer.go:19 and the loop condition at
tokenizer/tokenizer.go:22 skip only space, tab and newline, so carriage
return is not skipped. tokenizer/tokenizer.go contains no string, number,
boolean or null scanning: `GetNextToken` (tokenizer/tokenizer.go:27-35)
walks the cursor to the end and returns no token and no error.

## Model

| member | source | states |
|---|---|---|
| `Tokens.Name` | tokenizer/token.go:25-48 | total on every `TokenType`. The result is "Unknown" exactly when the value is not one of the nine constants that have a case (so `ArrayEnd` and every value outside 0..9 are "Unknown"). The result is never empty |
| `Tokens.DeclaredAreConsecutive` | tokenizer/token.go:6-17 | the ten constants take the consecutive values 0..9 in declaration order, and a value is a declared constant exactly when it lies in 0..9 |
| `Tokens.NameAgreesWithIdentifiers` | tokenizer/token.go:25-48 | each constant's name is its own identifier, with two exceptions: `ArrayEnd` gives "Unknown" and `Number` gives "number", and neither equals its identifier |
| `Tokens.NameOutsideRange` | tokenizer/token.go:45-46 | every value below `ObjectStart` or above `Null` is named "Unknown" |
| `Tokens.NamesDistinct` | tokenizer/token.go:26-44 | the nine constants that have a case have pairwise distinct names |
| `Tokens.TokenIsPair` | tokenizer/token.go:20-23 | a token is determined by its value (a byte sequence) and its kind |
| `Lexer.WhitespaceEnd` | tokenizer/tokenizer.go:20-25 | whitespace skipping from `p` stops at an offset `e >= p`. Every byte in `[p, e)` is a space, tab or newline. The lookahead byte at `e` is not one of them. `e` stays within the input when `p` does, and `e == p` when `p` is already past the end |
| `Lexer.CarriageReturnStops` | tokenizer/tokenizer.go:22-24 | a carriage return at the cursor stops the skip at once |
| `Lexer.ScanEnd` | tokenizer/tokenizer.go:27-35 | the skip-then-step loop ends at or past the end of the input and never moves the cursor backwards |
| `Lexer.ScanEndClosedForm` | tokenizer/tokenizer.go:27-35 | the loop started at `p` inside the input ends at `len(input) + 1` when the last byte is whitespace, and at `len(input)` otherwise. Started at or past the end, it stays at `p` |
| `Lexer.Tokenizer.constructor` | tokenizer/tokenizer.go:11-17 | for non-empty input: the cursor is at offset 0, the lookahead byte is `input[0]`, and the class invariant holds |
| `Lexer.Tokenizer.MoveNext` | tokenizer/tokenizer.go:37-44 | `position` grows by exactly one and `input` is unchanged. `currentChar` becomes `input[position]` in bounds and 0 otherwise, which re-establishes the class invariant from any state |
| `Lexer.Tokenizer.SkipWhitespace` | tokenizer/tokenizer.go:20-25 | terminates and keeps the class invariant. The new position is `WhitespaceEnd` of the old one: it never decreases, every byte stepped over was a space, tab or newline, it does not pass the end of the input, and the final `currentChar` is not whitespace |
| `Lexer.Tokenizer.GetNextToken` | tokenizer/tokenizer.go:27-35 | terminates with no token and no error, keeps the class invariant, and leaves `position` at `ScanEnd` of the old one. That is at or past the end, with `currentChar == 0`, and it is exactly `len(input)` or `len(input) + 1` depending on the last byte. Called at or past the end, it changes nothing |

## Left out

- The debug `fmt.Printf` trace inside `GetNextToken` (tokenizer/tokenizer.go:30) is console output. The loop is modelled without it.
- main.go is the program entry point: a sample input and console printing. It is not part of this model.
- parser/parser.go is not part of this model. `Parse` is a stub that returns nothing, and no grammar logic exists to model.
- No string, escape, number, boolean or null scanning, and no parsing into a value tree. tokenizer/tokenizer.go contains none of them, and parser/parser.go:16-18 returns nil without parsing.
- Lexer.Tokenizer.constructor: the Go code panics when it reads `input[0]` of an empty input. This is modelled as the precondition `|input| > 0` rather than as an error result.
- `position` is an unbounded `nat`, not Go's fixed-width `int`. Under the tokenizer's own loops it never exceeds `len(input) + 1`, so wrap-around cannot happen there.
- Go strings (the tokenizer's `input` and `Token.value`) are modelled as sequences of bytes, so they may hold any bytes, including invalid UTF-8. No UTF-8 decoding is involved, because the source indexes the input byte by byte.
