# sql-parser in Dafny

A model of a small SQL `SELECT` lexer and recursive-descent parser, with
proofs about it. The Go repository has two snapshots, and the model covers
both.

- **The character scanner** (`scanner.go`) turns the input into
  (token, literal) pairs. It reads one character at a time and can put one
  back. It groups whitespace runs, identifiers and keywords (matched without
  regard to case), numbers, the six comparison operators, quoted strings with
  backslash escapes, and single punctuation characters.
- **The token set** (`sql/token.go`) has 21 constants, numbered in
  declaration order, and a `String` method.
- **The newer parser** (`sql/parser.go`) reads `SELECT fields FROM tables`
  and stops at `WHERE` or EOF. Each field is a name with an optional alias.
  Its parser object keeps a one-slot buffer, so the last token read can be
  pushed back. The file also holds the printers for fields, field lists and
  statements.
- **The condition parser** (`sql/parsercond.go`) builds a binary tree of
  identifier leaves joined by `AND`/`OR`, recursing into parentheses.
- **The older parser** (`parser.go`) reads `SELECT names FROM table`: bare
  field names and a single table identifier.

## How the model is built

- **`Tokens`** (`tokens.dfy`) holds the token datatype, its integer codes
  and its names.
- **`Lexer`** (`lexer.dfy`) says, as pure functions, what one `Scan` returns
  from a read position. `ScanAt` is the dispatcher. `WhitespaceAt`, `IdentAt`,
  `NumberAt`, `OpAt` and `QuotedAt` follow the individual scanning loops.
- **`Scanning.Scanner`** (`scanner.dfy`) is a class over the input string,
  with a read position and a flag for whether one character can be put back.
  Every method is proved against the matching `Lexer` function.
- **`TokenStream`** (`stream.dfy`) defines the token stream of a whole input
  (`Tokenize`). It also defines the stream index a parser has reached, and
  `NextNonWs`, which is what `scanIgnoreWhitespace` returns.
- **`Grammar`** (`grammar.dfy`) and **`Legacy`** (`legacy.dfy`) give, as
  functions over the token stream, what each parser returns and how far it
  reads.
- **`SqlParser.Parser`** (`parser.dfy`) and **`Legacy.Parser`**
  (`legacy.dfy`) are classes with the scanner, the one-slot buffer
  (`bufTok`, `bufLit`, `bufN`) and a ghost count of the tokens taken. Their
  methods use the same loops and branches as the Go code. Each is proved to
  return what the matching `Grammar`/`Legacy` function returns, and to leave
  the stream index where that function says.
- **`Ast`** (`ast.dfy`) and **`Rendering`** (`render.dfy`) model the
  printers. They prove that a printed statement or condition scans back to
  the lexemes it was printed from.
- **`RoundTrip`** (`roundtrip.dfy`) proves that parsing a printed statement
  gives the statement back, for both parsers.
- **`Outcomes`** (`outcomes.dfy`) describes every possible result and error
  of each parser.
- **`StatementExamples`** (`statements.dfy`) and **`CondFacts`**
  (`conditions.dfy`) state the repository's test cases. `CondFacts` also
  records the condition-parser fault described under Findings.
- **`Corrected`** and **`CorrectedFacts`** (`fixed.dfy`) hold the corrected
  condition parser and its round trip. `SqlParser.Parser.ParseCondTreeCorrected`
  is the corresponding method.

Errors are a datatype: `Unexpected(found, expected)` carries the literal that
was found and the construct that was expected. `InFields(cause)` is the
newer parser's wrapper for an error inside a field or table list.

## Model

| member | source | states |
|---|---|---|
| Tokens.Code | sql/token.go:6-37 | every token's integer value is below 21, the number of constants |
| Tokens.FromCode | sql/token.go:6-37 | a value names a token exactly when it is in 0..20, and that token's code is the value |
| Tokens.CodeRoundTrip | sql/token.go:6-37 | the code of a token leads back to that token, so the constants are consecutive and distinct |
| Tokens.CodeInjective | sql/token.go:6-37 | no two tokens share a code |
| Tokens.CodeNameOfToken | sql/token.go:39-82 | `String` of a declared token is its own upper-case name, never "UNKNOWN" |
| Tokens.CodeNameUnknown | sql/token.go:84 | `String` gives "UNKNOWN" exactly for values outside the declared constants |
| Tokens.NameRoundTrip | sql/token.go:40-83 | a token's name leads back to the token |
| Tokens.NameInjective | sql/token.go:40-83 | no two tokens share a name |
| Lexer.RunEnd | scanner.go:73-82 | the end of a run is maximal: every character before it is in the run, and the character at it is not |
| Lexer.ScanAt | scanner.go:21-63 | one scan never moves past the input, and it always consumes at least one character unless at the end |
| Lexer.WhitespaceRun | scanner.go:28-30 | a whitespace character starts one WS token whose literal is the maximal run of space, tab and newline; the character after it is not consumed |
| Lexer.IdentifierRun | scanner.go:31-33 | a letter starts a maximal run of letters, digits, `_`, `.`, `-`, `*`; the literal keeps its casing and the token is the keyword it spells, or IDENT |
| Lexer.NumberRun | scanner.go:34-36 | a digit or `-` starts a NUMBER over the maximal following run of digits, `-` and `.` |
| Lexer.LoneMinusIsNumber | scanner.go:34-36 | a `-` not followed by a number character scans as NUMBER "-" |
| Lexer.KeywordIgnoresCase | scanner.go:106-118 | an identifier scans as keyword `t` exactly when it spells `t`'s name in any mix of cases |
| Lexer.KeywordOfCaseInvariant | scanner.go:106-118 | two spellings differing only in case scan as the same token |
| Lexer.KeywordOfRange | scanner.go:106-121 | an identifier scans as one of the five keywords or as IDENT |
| Lexer.Operators | scanner.go:148-187 | `=` EQ, `!=` NE, `<=` LE, `>=` GE; `<`/`>` alone give LT/GT with the next character unread; `!` followed by a character x other than `=` or NUL gives ILLEGAL "!x"; `!` followed by a NUL gives ILLEGAL "!" with the NUL consumed; and a `!` at the end of input gives ILLEGAL "!" |
| Lexer.QuotedTailCloses | scanner.go:206-219 | an escaped body followed by the quote closes the string right there |
| Lexer.QuotedTailClosed | scanner.go:206-219 | conversely, a closed string is exactly an escaped body and the quote, so an escaped quote never closes it |
| Lexer.QuotedString | scanner.go:200-222 | a quote, an escaped body and the same quote scan as one STRING whose literal includes both quotes |
| Lexer.StringShape | scanner.go:200-222 | every STRING is an opening quote, an escaped body and the same quote |
| Lexer.UnterminatedString | scanner.go:207-208 | end of input, a newline or a NUL before the closing quote gives ILLEGAL; the literal is what was read before it, and the newline is consumed but not kept |
| Lexer.BackslashAtEnd | scanner.go:209-212 | a backslash as the last input character of an open string adds a NUL to the ILLEGAL literal |
| Lexer.EndOfInput | scanner.go:49-51 | at the end of input every scan gives EOF "" and consumes nothing |
| Lexer.SingleCharacters | scanner.go:49-62 | `*`, `,`, `(`, `)` give their one-character tokens; any character that starts no token (not whitespace, a letter, a digit, `-`, an operator character, a quote, `*`, `,`, `(`, `)` or NUL; so `_` and `.` among them) gives ILLEGAL with that character |
| Scanning.Scanner.constructor | scanner.go:16-18 | a new scanner reads from the start of its input |
| Scanning.Scanner.Read | scanner.go:226-232 | the next character, or NUL at the end of input without moving |
| Scanning.Scanner.Unread | scanner.go:241 | puts back the character just read, at most once, and nothing after a read at the end of input |
| Scanning.Scanner.Scan | scanner.go:21-63 | the token and position after the call are exactly `ScanAt` of the input at the old position |
| Scanning.Scanner.ReadRun | scanner.go:66-104 | the run loop returns the input from the old position to the end of the maximal run, and stops at the character that ended it |
| Scanning.Scanner.ScanWhitespace | scanner.go:66-85 | returns `WhitespaceAt` |
| Scanning.Scanner.ScanIdent | scanner.go:88-122 | returns `IdentAt`: the run, with the keyword picked by its upper-cased spelling |
| Scanning.Scanner.ScanNumber | scanner.go:125-144 | returns `NumberAt` |
| Scanning.Scanner.ScanOp | scanner.go:148-187 | returns `OpAt` |
| Scanning.Scanner.ScanStr | scanner.go:192-222 | returns `QuotedAt`; the loop invariant ties the gathered text to the rest of the string |
| TokenStream.Lex | scanner.go:21-63 | the stream of one input never has more lexemes than characters |
| TokenStream.LexFrom | scanner.go:21-63 | the c-th lexeme of a stream is what the c-th call of `Scan` returns |
| TokenStream.LexAt | scanner.go:21-63 | links the scanner object's position after c scans to the c-th lexeme |
| TokenStream.LexLength | scanner.go:49-51 | the stream covers the whole input |
| TokenStream.ScanAtEnd | scanner.go:49-51 | at the end of input, scanning gives EOF and stays there |
| TokenStream.NextNonWs | sql/parser.go:146-152 | `scanIgnoreWhitespace` reads one or two lexemes |
| TokenStream.SkipsAtMostOneWs | sql/parser.go:146-152 | it skips at most one WS lexeme, and returns the lexeme just before where it stops |
| TokenStream.NextInside | sql/parser.go:146-152 | a lexeme other than ILLEGAL or EOF comes from inside the stream |
| Ast.FieldsStringIsJoin | sql/parser.go:25-33 | the recursive `Fields.String` equals joining the printed fields with ", " |
| Ast.FieldsStringAppend | sql/parser.go:25-33 | printing two non-empty lists one after the other puts ", " between them |
| Ast.FieldsStringEmpty | sql/parser.go:26-27 | a list of named fields prints as "" exactly when it is empty |
| Ast.FieldsStringExamples | sql/parser_test.go:16-29 | the four printed lists of the field-printer test |
| Ast.CondStringExamples | sql/parsercond.go:16-33 | a leaf prints as its identifier and a conjunction as "(L OP R)" |
| Grammar.FieldEntry | sql/parser.go:103-114 | one field entry (a name, then an optional IDENT alias) reads at least one lexeme |
| Grammar.FieldList | sql/parser.go:99-125 | every list parse reads at least one lexeme |
| Grammar.Statement | sql/parser.go:61-93 | every statement parse reads at least one lexeme |
| Grammar.CondTree | sql/parsercond.go:35-74 | every tree parse reads at least one lexeme, and every tree it returns has only AND/OR operators |
| Grammar.CondOperand | sql/parsercond.go:40-50 | the left operand reads at least one lexeme and is well formed |
| Grammar.CondAfter | sql/parsercond.go:52-73 | what follows the operand reads on past it and yields a well-formed tree |
| Legacy.Statement | parser.go:30-69 | every parse of the older grammar reads at least one lexeme |
| SqlParser.Parser.constructor | sql/parser.go:55-58 | a new parser starts at stream index 0 |
| SqlParser.Parser.Scan | sql/parser.go:129-143 | returns the lexeme at the stream index and moves one on; a pushed-back token is returned without touching the scanner |
| SqlParser.Parser.ScanIgnoreWhitespace | sql/parser.go:146-152 | returns what `NextNonWs` says and ends where it says |
| SqlParser.Parser.Unscan | sql/parser.go:154-155 | the next `Scan` returns the last token again; pushing back twice is the same as once |
| SqlParser.Parser.ParseCommaDelimIdents | sql/parser.go:99-125 | returns `FieldList` of the stream at the old index, and leaves the index where it ends |
| SqlParser.Parser.Parse | sql/parser.go:61-93 | returns `Statement` of the stream at the old index, and leaves the index where it ends |
| SqlParser.Parser.ParseCondTree | sql/parsercond.go:35-74 | returns `CondTree` of the stream at the old index, and leaves the index where it ends |
| Legacy.Parser.constructor | parser.go:24-28 | a new parser starts at stream index 0 |
| Legacy.Parser.Scan | parser.go:71-87 | as in the newer parser |
| Legacy.Parser.ScanIgnoreWhitespace | parser.go:89-96 | as in the newer parser |
| Legacy.Parser.UnScan | parser.go:98-99 | as in the newer parser |
| Legacy.Parser.Parse | parser.go:30-69 | returns `Legacy.Statement` of the stream at the old index, and leaves the index where it ends |
| Legacy.FieldNames | parser.go:39-53 | every field loop reads at least one lexeme |
| Outcomes.FieldEntryOutcome | sql/parser.go:103-106 | a failing entry reports the literal it found and "expected field" |
| Outcomes.FieldEntryResult | sql/parser.go:103-114 | an entry succeeds exactly when the first lexeme read is IDENT or `*`; the name is its literal, the alias is the literal of an IDENT right after it, and otherwise the alias is "" and that lexeme stays unread |
| Outcomes.FieldListOutcome | sql/parser.go:99-125 | a list parse returns a non-empty list and leaves a non-comma lexeme next, or fails on a non-field literal |
| Outcomes.StatementSucceeds | sql/parser.go:61-93 | a successful Parse has non-empty field and table lists, and the last lexeme read was WHERE or EOF |
| Outcomes.StatementFails | sql/parser.go:61-89 | Parse fails only with expected SELECT, FROM or WHERE, or a wrapped field error, each naming the last literal read |
| Outcomes.CondTreeOutcome | sql/parsercond.go:35-74 | every error of parseCondTree names the last literal read, and says an operand or AND/OR was expected |
| Outcomes.CondOperandOutcome | sql/parsercond.go:40-50 | the same for the left operand |
| Outcomes.CondAfterOutcome | sql/parsercond.go:52-73 | the same after the left operand |
| Outcomes.OperandError | sql/parsercond.go:40-50 | a first lexeme other than `(` or IDENT fails the operand and the tree with expected operand, naming that lexeme |
| Outcomes.ConjunctionError | sql/parsercond.go:52-71 | after an operand, a lexeme other than AND, OR, `)` or EOF fails the tree with expected AND or OR, naming that lexeme |
| Outcomes.FieldNamesOutcome | parser.go:39-53 | the older field loop returns a non-empty list before a non-comma, or fails with expected field |
| Outcomes.LegacySucceeds | parser.go:60-68 | a successful older Parse has at least one field, and its table name is the IDENT read last |
| Outcomes.LegacyFails | parser.go:30-69 | the older Parse fails only with expected SELECT, field, FROM or table name, naming the last literal read |
| Rendering.Tokenizes | scanner.go:21-63 | printable lexemes laid side by side scan back to themselves |
| Rendering.StatementTokenizes | sql/parser.go:41-43 | a printed valid statement scans to its lexemes |
| Rendering.CondTokenizes | sql/parsercond.go:16-33 | a printed valid condition scans to its lexemes |
| RoundTrip.PushBackReread | sql/parser.go:118-121 | reading again from where a list pushed its last token back gives that token again |
| RoundTrip.FieldListLast | sql/parser.go:116-121 | a field not followed by a comma ends the list, and the lexeme after it is pushed back |
| RoundTrip.FieldListCons | sql/parser.go:116-121 | a field followed by a comma is the head of the list that follows |
| RoundTrip.StatementOfParts | sql/parser.go:61-93 | SELECT, a field list, FROM, a table list and WHERE or EOF make the statement of those lists |
| RoundTrip.ParseRoundTrip | sql/parser.go:41-93 | parsing the printed text of a valid statement gives the statement back, and stops after EOF |
| RoundTrip.ParseRendered | sql/parser.go:61-93 | the parser object returns the statement for its printed text |
| RoundTrip.LegacyRoundTrip | parser.go:30-69 | the older parser reads back a printed statement with bare fields and one table, and stops after the table name |
| RoundTrip.LegacyParseRendered | parser.go:30-69 | the older parser object returns that statement |
| StatementExamples.NoSelect | sql/parser_test.go:61-64 | `foo` fails with expected SELECT in both parsers |
| StatementExamples.NoField | sql/parser_test.go:66-69 | `SELECT !` fails with expected field in both parsers; the newer parser wraps it as a field-list error |
| StatementExamples.AliasThenNoFrom | sql/parser_test.go:71-74 | `SELECT field1 alias1 BAD` takes the alias and fails with expected FROM on `BAD` |
| StatementExamples.NoWhere | sql/parser_test.go:76-81 | `... FROM table1 talias1 BAD` fails with expected WHERE |
| StatementExamples.ThreeFields | sql/parser_test.go:41-49 | the three-field statement parses to its fields and table |
| StatementExamples.ThreeNames | parser_test.go:27-34 | the older parser reads the same statement as three names and a table |
| StatementExamples.LegacyNoFrom | parser_test.go:48 | `SELECT field xxx` fails with expected FROM in the older parser |
| StatementExamples.LegacyNoTable | parser_test.go:49 | `SELECT field FROM *` fails with expected table name |
| StatementExamples.AliasedList | sql/parser_test.go:104-109 | `field1 alias1, field2 alias2, field3` gives three fields with their aliases |
| CondFacts.CondTreeSkip | sql/parsercond.go:40 | a WS lexeme before a tree is skipped |
| CondFacts.ConjStep | sql/parsercond.go:52-66 | AND/OR after an operand makes a conjunction of the operand and the rest; a `)` after it is consumed and any other lexeme is pushed back |
| CondFacts.LeafOperand | sql/parsercond.go:46-47 | an IDENT operand is a leaf carrying its literal |
| CondFacts.ParenOperand | sql/parsercond.go:41-45 | a `(` operand is whatever the nested tree parse returns, with no check for a closing `)` |
| CondFacts.EndStep | sql/parsercond.go:67-73 | a `)` or EOF after an operand returns the operand unchanged |
| CondFacts.ChainParsed | sql/parsercond.go:53-66 | a chain of names joined by one operator parses as the chain nested to the right |
| CondFacts.FourAnds | sql/parsercond_test.go:31-37 | `A AND B AND C AND D` parses as AND(A, AND(B, AND(C, D))) |
| CondFacts.GroupAlone | sql/parsercond_test.go:40-43 | the whole input `(A AND B)` parses as AND(A, B) without error, reading through the EOF after the `)` |
| CondFacts.GroupAB | sql/parsercond_test.go:46-63 | in the later tests, the leading group `(A AND B)` followed by ` OR` is the operand AND(A, B), and the `)` is consumed |
| CondFacts.InnerGroup | sql/parsercond_test.go:66-74 | the second group `(C AND (D OR E) AND F)` of that test parses as C AND ((D OR E) AND F) |
| CondFacts.GroupThenName | sql/parsercond_test.go:46-53 | `(A AND B) OR C` parses as OR(AND(A,B), C) |
| CondFacts.TwoGroups | sql/parsercond_test.go:56-63 | `(A AND B) OR (C AND D)` parses as OR(AND(A,B), AND(C,D)) |
| CondFacts.NestedGroups | sql/parsercond_test.go:66-74 | `(A AND B) OR (C AND (D OR E) AND F)` parses as the tree the test expects |
| CondFacts.UnclosedGroup | sql/parsercond.go:67-73 | `(A AND B` is accepted without error as AND(A, B) |
| CondFacts.StrayClose | sql/parsercond.go:62-64 | `A AND B)` is accepted; the stray `)` is consumed |
| CondFacts.NestedMisparsed | sql/parsercond.go:62-68 | the printed form of ((A AND (B OR C)) OR D) is read without error as a different tree |
| Corrected.Primary | sql/parsercond.go:40-50 | the corrected operand reads at least one lexeme and is well formed |
| Corrected.Tree | sql/parsercond.go:35-74 | the corrected tree parse reads at least one lexeme and yields a well-formed tree |
| Corrected.After | sql/parsercond.go:52-73 | the corrected continuation never moves back and yields a well-formed tree |
| CorrectedFacts.TreeSkip | sql/parsercond.go:40 | a WS lexeme before a corrected tree is skipped |
| CorrectedFacts.Leaf | sql/parsercond.go:46-47 | an IDENT is a leaf |
| CorrectedFacts.Group | sql/parsercond.go:41-45 | a `(` operand is the nested tree, and the matching `)` is consumed |
| CorrectedFacts.Conjoin | sql/parsercond.go:52-66 | AND/OR after an operand joins it with the rest, and nothing after the rest is consumed |
| CorrectedFacts.End | sql/parsercond.go:67-73 | a `)` or EOF after an operand ends the tree and is left unread |
| CorrectedFacts.ChainRead | sql/parsercond.go:53-66 | the corrected parser reads a chain of names right-nested, like the original |
| CorrectedFacts.GroupAloneFixed | sql/parsercond_test.go:40-43 | the corrected parser reads the whole input `(A AND B)` as AND(A, B) and stops at the end of input |
| CorrectedFacts.GroupABFixed | sql/parsercond_test.go:46-63 | in the later tests, the corrected parser reads the leading group `(A AND B)` followed by ` OR` as the operand AND(A, B), stopping after the `)` |
| CorrectedFacts.InnerGroupFixed | sql/parsercond_test.go:66-74 | the corrected parser reads the second group of that test as the test expects |
| CorrectedFacts.FixedRoundTrip | sql/parsercond.go:16-74 | the corrected parser reads every printed valid condition back as itself, and stops at the end of input |
| CorrectedFacts.NestedReadBack | sql/parsercond.go:62-68 | the corrected parser reads ((A AND (B OR C)) OR D) back correctly |
| CorrectedFacts.FourAndsFixed | sql/parsercond_test.go:31-37 | the corrected parser reads the right-nested chain like the original |
| CorrectedFacts.GroupThenNameFixed | sql/parsercond_test.go:46-53 | the corrected parser gives the tree the test expects |
| CorrectedFacts.TwoGroupsFixed | sql/parsercond_test.go:56-63 | the corrected parser gives the tree the test expects |
| CorrectedFacts.NestedGroupsFixed | sql/parsercond_test.go:66-74 | the corrected parser gives the tree the test expects |
| CorrectedFacts.UnclosedGroupFixed | sql/parsercond.go:41-45 | the corrected parser rejects `(A AND B`: a closing parenthesis was expected |
| CorrectedFacts.StrayCloseFixed | sql/parsercond.go:62-64 | the corrected parser leaves the stray `)` of `A AND B)` unread for its caller |
| SqlParser.Parser.ParseCondTreeCorrected | sql/parsercond.go:35-74 | the corrected method returns `Corrected.Tree` of the stream, and leaves the index where it ends |

## Left out

- Reading through `bufio.Reader` and decoding UTF-8 (scanner.go:16-18, 226-241) are not modelled. The input is a character sequence with a read position. Unread puts back one character, and nothing after a read at the end of input, which is how `UnreadRune` behaves.
- `read` returns NUL at the end of input, so an input NUL is read as the end. The model keeps this quirk rather than hiding it. A NUL ends a whitespace, identifier or number run and is consumed. In a string it gives ILLEGAL. A backslash at the end of a string puts a NUL into the literal (`Lexer.BackslashAtEnd`).
- `peek` (scanner.go:234-238) is never called and is not modelled.
- Error messages built with `fmt.Errorf` and `%q` are not modelled as strings. Errors are the `Unexpected`/`InFields` datatype, which keeps the literal that was found and what was expected.
- `CondComp`'s `CondOp` and `Val` fields are never set by the parser and are left out. So is the commented-out form of `CondComp.String`.
- `SelectStatement` has no condition, and `Parse` never calls `parseCondTree`. It stops after WHERE or EOF (sql/parser.go:86-92), so a WHERE clause is never read. The model does the same. `parseCondTree` is modelled on its own (`SqlParser.Parser.ParseCondTree`).
- The test inputs are stated as the token streams they scan to. Only `A AND B AND C AND D` is also scanned from its text (`CondFacts.FourAnds`). The scanner's own examples are covered by the general lemmas on `ScanAt`, not one by one.
- `main.go`, `testutil/testlogger.go` and the top-level `token.go` are not part of this model: the first two are console and logging setup, and the last is a constant list with no behaviour.
- The round-trip lemmas need valid input. Names must be words that are not keywords, and lists must be non-empty. Otherwise a printed field such as `select` or `a b` would scan differently.
- Grammar.FieldEntry: its own contract states only progress. What it returns for every input, and when it fails, is `Outcomes.FieldEntryResult`.
- Grammar.FieldList: its own contract states only progress. For every input, `Outcomes.FieldListOutcome` gives its result and error shape. `RoundTrip.FieldListCons` and `RoundTrip.FieldListLast` say an entry followed by a comma heads the rest of the list, and an entry followed by anything else ends it.
- Grammar.Statement: its own contract states only progress. `Outcomes.StatementSucceeds` and `Outcomes.StatementFails` give its results and errors, and `RoundTrip.StatementOfParts` says how the parts make the statement.
- Grammar.CondTree: its own contract states only progress and well-formedness. `Outcomes.CondTreeOutcome`, `Outcomes.OperandError` and `Outcomes.ConjunctionError` give its errors. `CondFacts.LeafOperand`, `ParenOperand`, `ConjStep` and `EndStep` give its successes.
- Grammar.CondOperand: its own contract states only progress and well-formedness. `CondFacts.LeafOperand`, `CondFacts.ParenOperand` and `Outcomes.OperandError` give its three cases.
- Grammar.CondAfter: its own contract states only progress and well-formedness. `CondFacts.ConjStep`, `CondFacts.EndStep` and `Outcomes.ConjunctionError` give its cases.
- Legacy.FieldNames: its own contract states only progress. `Outcomes.FieldNamesOutcome` gives its result and error shape for every input. `RoundTrip.NamesCons` and `RoundTrip.NamesLast` give its successes only when each name sits directly before its comma, as in printed text.
- Legacy.Statement: its own contract states only progress. `Outcomes.LegacySucceeds`, `Outcomes.LegacyFails` and `RoundTrip.LegacyOfParts` give its results and errors.
- Corrected.Primary: its own contract states only progress and well-formedness. `CorrectedFacts.Leaf` and `CorrectedFacts.Group` give its successes. Its errors are stated only for the example `CorrectedFacts.UnclosedGroupFixed`.
- Corrected.Tree: its own contract states only progress and well-formedness. `CorrectedFacts.Conjoin`, `CorrectedFacts.End` and `CorrectedFacts.FixedRoundTrip` give its successes. Its errors are stated only for the example `CorrectedFacts.UnclosedGroupFixed`.
- Corrected.After: its own contract states only progress and well-formedness. `CorrectedFacts.Conjoin` and `CorrectedFacts.End` give its successes. Its errors are not stated beyond the example `CorrectedFacts.UnclosedGroupFixed`.

## Findings

| source | as written | input that shows it | evidently intended | confidence | as-written member | corrected member |
|---|---|---|---|---|---|---|
| sql/parsercond.go:62-68 | After a conjunction, a following `)` is consumed. After a bare operand, a `)` is consumed too. A `)` can then close a group that was opened elsewhere, and the tree returns early or too late. Also, an unclosed `(` and a stray `)` are accepted without error. | `((A AND (B OR C)) OR D)`, the printed form of that tree, is read as `A AND ((B OR C) OR D)` with no error | A `(` operand is closed by exactly one `)`. A `)` or EOF after an operand ends the tree and is left for the caller. So printing then parsing gives every valid tree back. | not executed | CondFacts.NestedMisparsed | CorrectedFacts.FixedRoundTrip |

The corrected parser, `Corrected.Tree`, differs from the as-written one in two
places. First, after the tree inside `(`, it requires a `)`; otherwise it
reports `Unexpected(found, ClosingParen)`. Second, it pushes back a `)` or EOF
that follows an operand instead of consuming it. On the seven condition test
inputs both parsers build the same trees. `CondFacts.ChainParsed` and
`CorrectedFacts.ChainRead` cover `A`, `A AND B` and `A AND B AND C AND D`;
the other four inputs, `(A AND B)` (`GroupAlone`), `(A AND B) OR C`,
`(A AND B) OR (C AND D)` and the nested one, have one whole-input lemma each
in `CondFacts` and its `Fixed` twin in `CorrectedFacts`.

Every parenthesised input in sql/parsercond_test.go is balanced. The code
as written also accepts the unbalanced `(A AND B` and `A AND B)` without
error (`CondFacts.UnclosedGroup`, `CondFacts.StrayClose`). The as-written
model follows the code.
