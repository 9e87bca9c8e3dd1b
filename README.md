# hephaestus in Dafny

A model of the three-stage toolchain of `hephaestus.org` (Go), with proofs about it:

- **the scanner** (`lexer.go`): a rune-at-a-time tokenizer with one-rune unread, line/offset bookkeeping, maximal-munch loops for whitespace, words and numbers, string literals, one-rune lookahead for `=`/`==`, `<`/`<=`, `>`/`>=`, and ILLEGAL for any other rune;
- **the parser** (`parser.go`): a recursive-descent recogniser for `void Ident ( ) { (Ident = Number ;)+ }` with a one-token pushback buffer, a whitespace-skipping wrapper and fail-fast errors;
- **the interpreter** (`interpreter.go`): `getIntValue`, which evaluates an expression tree against a symbol table, and `interpreter`, which runs every function's assignments into a fresh table.

Files and modules:

| file | module | contents |
|---|---|---|
| `wrappers.dfy` | `Wrappers` | `Option`, `Result`, `Outcome` |
| `tokens.dfy` | `Tokens` | `TokenKind`, the enum of `token.go` |
| `lexer.dfy` | `Lexer` | `ScanAt`, the pure specification of one `Scan`; class `Scanner`, whose methods are the Go methods, proved against `ScanAt`; lemmas about single scans |
| `ast.dfy` | `Ast` | `Expr`, `Instruction`, `Function` |
| `parser.dfy` | `Parsing` | `Atoi`; `InstrAt`/`BodyAt`/`HeaderAt`/`ParseAt`, the grammar on a table of tokens; class `Parser`, proved against them; `Walk`/`ProgramKinds`/`Assignments`, an independent description of the accepted language, proved equivalent to `ParseAt`; the error cases |
| `interpreter.dfy` | `Interpreting` | `GetIntValue`; `Exec`/`RunAll`, the specification of `interpreter`; class `Interpreter` with its nested loops, proved against `RunAll`; lemmas |
| `walkthrough.dfy` | `Walkthrough` | the pipeline on `void main () { x=5;y=18;}`, and the rejection of `void main(){}` |

How the Go code becomes Dafny:

- The `bufio.Reader` is the text `input`, a cursor, and a flag `canUnreadRune`. The flag is true exactly after a successful read, because bufio only honours `UnreadRune` right after a `ReadRune`.
- `position` and `lastposition` (an `Option<Position>`) are fields of `Scanner`. `read` and `unread` update them as the Go code does.
- Every position the scanner holds is shown to be `PositionAt(input, cursor)`, or, after a lookahead at the end of the input, one rune earlier.
- The parser reads the significant token at each cursor from ghost tables, where "significant" means what `scanIgnoreWhitespace` yields there. Each method of `Parser` is proved to return what `ParseAt`, `BodyAt`, `InstrAt` or `HeaderAt` compute from those tables.
- `parser.go` does not fit `lexer.go` and `interpreter.go` as they stand, and the model bridges them explicitly:
  - `parser.go:148` expects `Scan` to return `(Token, string)`, but `lexer.go:43` returns `(ScannerRes, error)`. The parser takes `tok` and `lit` from the `ScannerRes`. A scanner error becomes `ParseError.ScanFailed` and is passed on unchanged.
  - `parser.go:21-24` stores the number as an `int`, but `interpreter.go:51` reads the value as an expression. `Expr` has exactly the cases `interpreter.go` reads, and the parser wraps each number in `IntLit`.

Notes on what the code does, which the model follows:

- An unterminated string literal loses its final byte, which is its final rune when that rune is ASCII. A lone `"` at the end of the input panics on a slice.
- A second `unread` returns the error "no character before".
- An unrecognised rune is an ILLEGAL token, not a scanner failure.
- `Parse2` stops right after the closing `}` and reads nothing further.
- The first failing assignment drops every table, including those of earlier functions.
- Values are integers only: there are no strings, booleans or type-mismatch errors. This is the `getIntValue` of this version of `interpreter.go`.

## Model

| member | source | states |
|---|---|---|
| Lexer.ScanAt | hephaestus.org/lexer.go:43-130 | one scan from cursor `k`: EOF exactly at the end; the cursor moves forward on every other token and stays in the input; the only failure is a lone `"` as the last rune; every literal except a string's is the text scanned |
| Lexer.KeywordOrIdent | hephaestus.org/lexer.go:181-197 | a word is the keyword it spells exactly, and Ident exactly when it spells none |
| Lexer.RunEnd | hephaestus.org/lexer.go:141-153 | the end of the maximal run of a rune class: every rune before it is in the class, and the rune at it is not, or it is the end |
| Lexer.QuoteEnd | hephaestus.org/lexer.go:258-267 | the first `"` at or after a cursor, or the end of the input |
| Lexer.RuneClassesDisjoint | hephaestus.org/lexer.go:273-279 | whitespace, letters and digits are disjoint classes, and none holds of the end marker, `"`, `=`, `<`, `>` or a one-rune token, so each rune takes exactly one branch of `Scan` |
| Lexer.PositionAdvances | hephaestus.org/lexer.go:229-238 | one `read` moves the position one offset further, and one line further exactly on a newline, so `PositionAt` is what the reads so far produce |
| Lexer.StringAt | hephaestus.org/lexer.go:253-270 | a string literal fails exactly when its quote is the last rune of the input; otherwise its literal is the buffer up to where the loop stops without its first and last rune (Go cuts bytes; see Left out), holds no `"`, and the scan resumes there |
| Lexer.SingleRuneKind | hephaestus.org/lexer.go:82-129 | ILLEGAL exactly for a rune that is none of `* , ( ) { } ; + -`, and never EOF, WS, IDENT, NUMBER or STRING_LITERAL |
| Lexer.Lookahead | hephaestus.org/lexer.go:97-126 | the literal is the text consumed: two runes and the two-rune kind exactly when the next rune is `=`, else one rune and the one-rune kind |
| Lexer.Scanner.constructor | hephaestus.org/lexer.go:32-35 | a fresh scanner is at line 1, column 1, offset -1, with nothing to unread |
| Lexer.Scanner.Read | hephaestus.org/lexer.go:224-240 | at the end: the marker rune, and the position and saved position unchanged; otherwise the next rune, the old position saved, the offset one more, a newline moving to the next line at column 1 |
| Lexer.Scanner.Unread | hephaestus.org/lexer.go:243-251 | the reader steps back if it can; the saved position is restored and cleared; with no saved position the error "no character before" and the position unchanged |
| Lexer.Scanner.ReadRun | hephaestus.org/lexer.go:141-153 | the loop of the three scan helpers: the buffer is the text from the first rune to the end of the maximal run, the rune after the run is pushed back, and the position is that of the first rune |
| Lexer.Scanner.ScanWhitespace | hephaestus.org/lexer.go:133-156 | one WS token holding the whole run of blanks, and equal to `ScanAt` when started on a blank |
| Lexer.Scanner.ScanIdent | hephaestus.org/lexer.go:159-198 | the maximal run of letters, digits and `_`, classified by `KeywordOrIdent`, equal to `ScanAt` when started on a letter |
| Lexer.Scanner.ScanNumber | hephaestus.org/lexer.go:200-220 | the maximal run of digits as one NUMBER token, equal to `ScanAt` when started on a digit |
| Lexer.Scanner.ReadQuoted | hephaestus.org/lexer.go:258-267 | the loop of scanString: the buffer runs from the opening rune through the next `"`, or to the end of the input |
| Lexer.Scanner.ScanString | hephaestus.org/lexer.go:253-270 | the buffer without its first and last rune (Go cuts bytes; see Left out), or the slice failure for a one-rune buffer; equal to `ScanAt` when started on `"` |
| Lexer.Scanner.ScanLookahead | hephaestus.org/lexer.go:97-126 | the two-rune token when the next rune is `=`, else the one-rune token with the lookahead pushed back; at the end of the input the position rolls back before the operator |
| Lexer.Scanner.Scan | hephaestus.org/lexer.go:43-130 | at the end: EOF with an empty literal and nothing changed; otherwise the token `ScanAt` describes, at the position of its first rune, with the cursor after it |
| Lexer.SingleRuneToken | hephaestus.org/lexer.go:85-129 | a rune that starts no run, string or comparison is a one-rune token of its own kind with a one-rune literal |
| Lexer.WhitespaceToken | hephaestus.org/lexer.go:133-156 | a blank starts one WS token whose literal is the whole maximal run of blanks |
| Lexer.NoTwoWhitespaceTokens | hephaestus.org/lexer.go:141-153 | the scan after a WS token never yields WS |
| Lexer.WordToken | hephaestus.org/lexer.go:159-198 | a letter starts the maximal run of letters, digits and `_`; it is a keyword exactly when it spells one, else Ident with the full text |
| Lexer.NumberToken | hephaestus.org/lexer.go:200-220 | a digit starts a NUMBER token, the maximal run of digits, with no sign or point |
| Lexer.ClosedStringToken | hephaestus.org/lexer.go:253-270 | a closed string's literal is the text strictly between its quotes, verbatim, and the scan resumes after the closing quote |
| Lexer.UnclosedStringToken | hephaestus.org/lexer.go:258-269 | an unterminated string runs to the end and loses its final rune (Go cuts its final byte; see Left out); a lone `"` at the very end fails |
| Lexer.ComparisonToken | hephaestus.org/lexer.go:97-126 | `=`, `<`, `>` followed by `=` give EQUALS2, LESSER_OR_EQUALS, GREATER_OR_EQUALS with a two-rune literal, and otherwise the one-rune kind |
| Lexer.PunctuationToken | hephaestus.org/lexer.go:85-129 | every other rune is a one-rune token, ILLEGAL exactly when it is none of `* , ( ) { } ; + -`; input content never makes a scan fail |
| Lexer.EofToken | hephaestus.org/lexer.go:83-84 | at the end of the input: EOF with an empty literal, and the scan stays at the end, so every later scan yields EOF again |
| Lexer.LineCountsNewlines | hephaestus.org/lexer.go:229-238 | a position's line is one more than the number of newlines read, its column is always 1, and its offset is the number of runes read minus one |
| Parsing.DecimalText | hephaestus.org/parser.go:74-76 | the canonical decimal text of a number: digits only, no leading zero |
| Parsing.Atoi | hephaestus.org/parser.go:74-79 | a value only for a non-empty string of digits, from 0 to Go's `int` maximum; a string of digits it rejects has a value past that maximum; the value it returns is the digits' value (`Parsing.AtoiValue`) |
| Parsing.DigitsValueDefined | hephaestus.org/parser.go:74-76 | a string has a digit value exactly when all its characters are digits |
| Parsing.DigitsOfDecimalText | hephaestus.org/parser.go:74-76 | reading back the decimal text of `n` gives `n` |
| Parsing.AtoiDecimalText | hephaestus.org/parser.go:74-79 | Atoi accepts the decimal text of every value of Go's `int` range from 0 up, and returns that value |
| Parsing.AtoiValue | hephaestus.org/parser.go:74-79 | a value Atoi accepts is the value its digits spell |
| Parsing.AtoiLeadingZeros | hephaestus.org/parser.go:74-79 | leading zeros do not change the value: zeros followed by the decimal text of `n` give `n`, so `05` is 5 |
| Parsing.AtoiOutOfRange | hephaestus.org/parser.go:74-76 | Atoi rejects a number past Go's `int` range, which makes the instruction a parse error |
| Parsing.QuotePlain | hephaestus.org/parser.go:62 | `%q` of a literal with no quote, backslash, newline, tab or carriage return is the literal between double quotes (other non-printable runes: see Left out) |
| Parsing.SignificantAt | hephaestus.org/parser.go:157-163 | the token scanIgnoreWhitespace yields is never WS, and the cursor moves forward past any token but EOF |
| Parsing.SignificantTable | hephaestus.org/parser.go:157-163 | the table of significant tokens is well formed: no WS, and cursors that stay in the input and move forward |
| Parsing.Expect | hephaestus.org/parser.go:61-63 | an expected-token check succeeds only on a token of the expected kind |
| Parsing.InstrAt | hephaestus.org/parser.go:61-83 | a parsed instruction ends after its `;`, further on |
| Parsing.BodyAt | hephaestus.org/parser.go:55-95 | a parsed body holds at least one instruction and ends after the `}` that follows the last one |
| Parsing.HeaderAt | hephaestus.org/parser.go:104-122 | a parsed head ends after its `{` |
| Parsing.ParseAt | hephaestus.org/parser.go:100-136 | a success is a one-element list whose function has at least one instruction, with the cursor moved forward |
| Parsing.ParseText | hephaestus.org/parser.go:44 | Parse2 on a fresh parser over a text: a success is one function with at least one instruction, ending inside the text |
| Parsing.Parser.constructor | hephaestus.org/parser.go:37-39 | a fresh parser over a fresh scanner at the start of the input, with an empty buffer |
| Parsing.Parser.Scan | hephaestus.org/parser.go:140-154 | with a token pushed back: that token, the scanner untouched, the buffer emptied; otherwise the scanner's next token, remembered in the buffer |
| Parsing.Parser.Unscan | hephaestus.org/parser.go:166 | the last token is pushed back, unchanged |
| Parsing.Parser.ScanIgnoreWhitespace | hephaestus.org/parser.go:157-163 | from an empty buffer: the significant token at the cursor; from a pushed-back token: that token, or the next one when it was WS |
| Parsing.Parser.ExpectToken | hephaestus.org/parser.go:61-63 | one "found %q, expected …" check: the literal when the kind matches, else the error naming the token found |
| Parsing.Parser.ParseAssignment | hephaestus.org/parser.go:61-83 | one pass of the instruction loop up to the `;` is `InstrAt`: the instruction, or the first mismatch |
| Parsing.Parser.Peek | hephaestus.org/parser.go:87-93 | the look-ahead after an instruction: the significant token's kind, with the token pushed back |
| Parsing.Parser.ParseInstr | hephaestus.org/parser.go:55-98 | the instructions are appended to the function in source order, as `BodyAt` computes them; the closing `}` is pushed back; the first error aborts |
| Parsing.Parser.ParseHeader | hephaestus.org/parser.go:104-122 | `void`, the name, `(`, `)`, `{`, as `HeaderAt` computes them, or the first mismatch |
| Parsing.Parser.Parse2 | hephaestus.org/parser.go:100-136 | the result is `ParseAt`: a one-element list, or the first error; the scanner stands right after the closing `}`, so no later token is read |
| Parsing.BodyStep | hephaestus.org/parser.go:85-93 | after an instruction, a `}` ends the body and any other token continues it |
| Parsing.BodyLoop | hephaestus.org/parser.go:57-95 | one pass of the body loop keeps "result = instructions so far, then the rest of the body" |
| Parsing.InstrComplete | hephaestus.org/parser.go:61-83 | IDENT `=` NUMBER `;` with a number Atoi accepts is the instruction assigning that number's value to the identifier |
| Parsing.InstrSound | hephaestus.org/parser.go:61-83 | an instruction parses only from IDENT `=` NUMBER `;`, with a number Atoi accepts |
| Parsing.BodyComplete | hephaestus.org/parser.go:55-95 | `n` ≥ 1 instructions followed by `}` parse to those `n` instructions in source order |
| Parsing.BodySound | hephaestus.org/parser.go:55-95 | a body parses only from `n` ≥ 1 instructions followed by `}` |
| Parsing.HeaderComplete | hephaestus.org/parser.go:104-122 | `void` IDENT `(` `)` `{` parses to the IDENT's literal |
| Parsing.HeaderSound | hephaestus.org/parser.go:104-122 | a head parses only from `void` IDENT `(` `)` `{` |
| Parsing.ParseComplete | hephaestus.org/parser.go:100-136 | every token sequence `void Ident ( ) { (Ident = Number ;)+ }` whose numbers Atoi accepts parses to one function named by the IDENT, with those instructions in order |
| Parsing.ParseSound | hephaestus.org/parser.go:100-136 | Parse2 succeeds only on such a sequence, and returns the function it spells |
| Parsing.HeadMismatch | hephaestus.org/parser.go:104-122 | the first token of the head with the wrong kind aborts with "found %q, expected void/main/(/)/{" naming it, a scanner failure there is passed on, and there is no partial result |
| Parsing.InstrMismatch | hephaestus.org/parser.go:61-84 | the first token of an instruction with the wrong kind aborts it with "found %q, expected identifier", `=`, `number` or `';'`, naming that token; a scanner failure there is passed on |
| Parsing.InstrBadNumber | hephaestus.org/parser.go:74-77 | a NUMBER that Atoi rejects aborts the instruction with "found %q, expected number" before the `;` is looked for |
| Parsing.BodyFirstFailure | hephaestus.org/parser.go:55-95 | a failing body fails with the error of its first failing instruction, after `n` instructions that parse and are not followed by `}` |
| Parsing.BodyErrorReported | hephaestus.org/parser.go:126-129 | Parse2 reports that instruction's error under "expected instruction: ", a scanner failure as it is |
| Parsing.EmptyBodyRejected | hephaestus.org/parser.go:61-62 | a `}` right after `{` is rejected under "expected instruction: ", because an identifier is demanded first |
| Interpreting.GetIntValue | hephaestus.org/interpreter.go:13-39 | evaluation succeeds exactly when every variable the expression reads is in the table |
| Interpreting.LeafValues | hephaestus.org/interpreter.go:14-21 | a literal is its value whatever the table holds; a variable is its entry, or "variable NAME not declared"; any other code is 0 |
| Interpreting.BinaryValue | hephaestus.org/interpreter.go:22-35 | with both sides computed, ADD is their sum and SUB their difference |
| Interpreting.LeftSideFirst | hephaestus.org/interpreter.go:23-26 | when the left side fails the right side plays no part, and one "error: " is added |
| Interpreting.UndeclaredReported | hephaestus.org/interpreter.go:16-29 | a failure names the first missing variable, left to right, under exactly `FailDepth` "error: " prefixes: one per ADD/SUB on the way down to the failing side, the left side when it fails and else the right |
| Interpreting.RightSideSecond | hephaestus.org/interpreter.go:27-29 | when the left side succeeds and the right fails, the result is the right side's error under one more "error: " |
| Interpreting.GetIntValueExtends | hephaestus.org/interpreter.go:13-39 | evaluation only reads the table: a larger table that agrees with a smaller one gives the same value |
| Interpreting.Exec | hephaestus.org/interpreter.go:47-58 | a run of one function's instructions keeps every starting name in its table; a failure carries the "error: " prefix |
| Interpreting.RunAll | hephaestus.org/interpreter.go:41-64 | a success holds one table per function; a failure carries the "error: " prefix |
| Interpreting.Interpreter.constructor | hephaestus.org/interpreter.go:9-11 | the interpreter holds the given functions |
| Interpreting.Interpreter.Interpret | hephaestus.org/interpreter.go:41-64 | the nested loops compute `RunAll` of the functions |
| Interpreting.ExecAppend | hephaestus.org/interpreter.go:49-58 | running two instruction lists one after the other is running their concatenation |
| Interpreting.ExecKeys | hephaestus.org/interpreter.go:47-58 | the final table holds exactly the starting names and the assigned ones |
| Interpreting.ExecUntouched | hephaestus.org/interpreter.go:49-58 | a name no instruction assigns keeps its starting entry, or its absence |
| Interpreting.LastAssignmentWins | hephaestus.org/interpreter.go:47-58 | every assigned name ends with the value of its last assignment, computed in the table built before it |
| Interpreting.FirstFailingInstruction | hephaestus.org/interpreter.go:49-54 | a failure is the first instruction whose value fails, under "error: " |
| Interpreting.RunAllTables | hephaestus.org/interpreter.go:43-63 | success is exactly every function running, and gives one table per function, in order, each from an empty table |
| Interpreting.RunAllFirstFailure | hephaestus.org/interpreter.go:51-54 | a failure is the error of the first failing function, and no table survives it |
| Interpreting.ExampleTable | hephaestus.org/interpreter_test.go:25-30 | the hand-built expression trees of `x=10;y=26;z=x+15;` give {x:10, y:26, z:25} (the parser only produces number literals) |
| Interpreting.ExampleUndeclared | hephaestus.org/interpreter_test.go:40-41 | the hand-built tree of `x=y;` gives "error: variable y not declared" |
| Interpreting.ExampleNestedError | hephaestus.org/interpreter.go:22-29 | the hand-built tree of `x=(y+1)-2;`, without y, gives three "error: " prefixes: two from the operators and one from the loop |
| Walkthrough.ParseDemo | hephaestus.org/parser_test.go:21-36 | `void main () { x=5;y=18;}` parses to the function main with x ← 5 and y ← 18, in that order, and the parser stops after the `}` |
| Walkthrough.RunDemo | hephaestus.org/interpreter_test.go:17-23 | running that function gives the one table {x:5, y:18} |
| Walkthrough.PipelineDemo | hephaestus.org/parser.go:43-51 | parsing the demo program and interpreting the result gives {x:5, y:18} |
| Walkthrough.ParseEmptyBody | hephaestus.org/parser.go:61-62 | `void main(){}` is rejected with "expected instruction: found \"}\", expected identifier" |
| Walkthrough.EmptyBodyMessage | hephaestus.org/parser.go:128 | the text of that error is `expected instruction: found "}", expected identifier` |

## Left out

- Console output: the `fmt.Printf` tracing in `interpreter` and the printing in the `parser()` demo have no logic. The demo's input and flow are modelled by `Walkthrough.PipelineDemo`.
- `bufio.Reader` and UTF-8 decoding: the input is a `string`, one `char` per rune. Inputs may not contain NUL (`NoNul`), because a real NUL rune cannot be told apart from the `eof` marker.
- Go's fixed-width `int`: sums and differences in `getIntValue` are unbounded. `Atoi` does check the 64-bit range.
- Lexer.StringAt, Lexer.Scanner.ScanString and Lexer.UnclosedStringToken: Go cuts the first and the last byte off the buffer (lexer.go:269), not the first and the last rune. For an unterminated literal whose final rune takes several UTF-8 bytes, Go keeps that rune's leading bytes, which a Dafny `string` of runes cannot hold; the model drops the whole rune. The two agree whenever the final rune is ASCII, and on every closed literal, whose final rune is the ASCII `"`.
- Atoi: sign prefixes are not modelled, because a NUMBER token holds digits only.
- Parsing.QuotePlain, Parsing.Message: `%q` escapes only `"`, `\`, newline, tab and carriage return. Go's other escapes for non-printable runes are not modelled.
- Parsing.Parser.ParseInstr: requires an empty token buffer. That is its state right after the `{` check in `Parse2`, its only caller.
- Parsing.Parser.Parse2: requires an empty token buffer. This holds on a fresh parser, which is how it is used.
- Parsing.Parser.ParseHeader and Parsing.Parser.Peek: these do not exist in the Go code. They are the header checks of `Parse2` and the look-ahead of `parseInstr`'s loop, factored into methods so that each proof stays small.
- `scanWhitespace`, `scanIdent` and `scanNumber` share one loop, `Lexer.Scanner.ReadRun`. Their three Go loops differ only in the rune class.
- `parseInstr` returns the function it appended to, as a value, instead of mutating `*Function` through a pointer. `Parse2` uses that value.
- `interpreter` returns an empty list for an empty function list. Go returns a nil slice, which holds the same elements.
- A scanner failure inside the body is passed on as it is, not under "expected instruction: ". In Go such a failure is a panic, which is not wrapped either.
- Some expectations of `parser_test.go` and `interpreter_test.go` are not modelled: AST positions, string and boolean values, comparison operators, `print(...)` calls, and errors carrying `pos=`. This version of `parser.go` and `interpreter.go` does not implement them.
- `token.go` is only the `TokenKind` enum. It has no properties of its own.
