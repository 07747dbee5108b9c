# KeiranScript compiler core, modelled in Dafny

KeiranScript is a small scripting language. It has assignment, `print`,
`if`/`else`, `while`, integer, boolean and comparison expressions, and string,
number and boolean literals. Its compiler turns a program into x86 assembly
text for Linux, macOS or Windows, in three stages:

- **Lexer** (`lexer.go`): one left-to-right scan with one character of
  lookahead. It turns the source text into tokens ending in an end-of-input
  token.
- **Parser** (`parser.go`): a recursive-descent parser with one mutable cursor.
  It builds the syntax tree of `ast.go`. Its expressions have six operator
  levels, all left-associative.
- **Code generator** (`compiler.go`): one walk over the tree. It appends
  assembly lines to a buffer, gives each assigned name a slot and numbers the
  labels it needs.

Each stage is modelled in the source's own form, as a class whose methods
update its fields in place:

| class | fields |
|---|---|
| `Lexing.Lexer` | the input and its cursor |
| `Parsing.Parser` | the tokens and the cursor |
| `CodeGen.Compiler` | the lines, the slot map and the label counter |

Each method is proved against a function of the old state: `StepAt`/`Scan`,
`ExprAt`/`StatementAt`/`BlockAt`/`ProgramFrom`, or
`CompileExpr`/`CompileStmt`/`CompileList`/`CompileProgram`. The lemmas then
prove what the source promises about those functions:

- the end-of-input terminator;
- how each kind of token is spelled;
- the scan's round trip to the input text;
- the error cases;
- that the parser reads back every tree a minimal-parenthesis printer writes,
  so precedence, associativity, parentheses and `else` come out as the grammar
  says;
- that code generation never fails on a parsed tree;
- the exact label count;
- dense slots in first-assignment order;
- that every jump has exactly one target label.

Each `panic` of the source becomes the error case of a `Result`.

Files:

| file | module | contents |
|---|---|---|
| `wrappers.dfy` | `Wrappers` | `Option` and `Result` |
| `decimal.dfy` | `Decimal` | decimal text: what `strconv.Atoi` reads and what `%d` prints |
| `lexer.dfy` | `Lexing` | the lexer |
| `lexer_proofs.dfy` | `LexingProofs` | its properties |
| `ast.dfy` | `Ast` | the syntax tree |
| `parser.dfy` | `Parsing` | the parser |
| `parser_proofs.dfy` | `ParsingProofs` | its properties |
| `compiler.dfy` | `CodeGen` | the code generator |
| `compiler_proofs.dfy` | `CodeGenProofs` | slots, label counts and absence of errors |
| `compiler_labels.dfy` | `CodeGenLabels` | label placement |
| `pipeline.dfy` | `Pipeline` | the three stages chained as `main.go` chains them |

Two behaviours of the code are worth naming:

- **A statement position holding a token that starts no statement.** This is
  a `;` or `else`, say, or end of input inside an unclosed `{`.
  `parseStatement` returns nil without moving the cursor, and `Parse` and
  `parseBlock` (parser.go:18-23, 108-113) then loop on the same token forever.
  The model ends that loop with the error `NoProgress(pos)` instead of running
  forever.
- **An unknown operating system.** `generatePrologue` and `generateEpilogue`
  (compiler.go:38-68) emit nothing for a system other than `linux`, `darwin`
  and `windows`, and report no error. The model does the same.

## Model

| member | source | states |
|---|---|---|
| Lexing.Lexer.constructor | lexer.go:49-51 | A new lexer holds the input with the cursor at 0. |
| Lexing.Lexer.Tokenize | lexer.go:53-135 | The result is exactly `Scan` of the input from the cursor: the tokens in order followed by one end-of-input token, or the first error the loop meets. |
| Lexing.Lexer.NextToken | lexer.go:56-130 | One pass of the switch returns what `StepAt` names. Whitespace gives no token and moves the cursor on. A recognised token is returned with the cursor past it. An unknown character, or a lone `!`, `&` or `\|`, is the error. |
| Lexing.StepAt | lexer.go:56-130 | Every case that does not fail moves the cursor forward by at least one and stays inside the input. No case produces the end-of-input token. |
| Lexing.Scan | lexer.go:53-134 | A successful scan ends in `Token(Eof, "")`, and no earlier token is an end-of-input token. |
| Lexing.Lexer.ReadIdentifier | lexer.go:137-159 | The cursor ends at the end of the maximal run of letters and digits. The token is `Word` of exactly the text read. |
| Lexing.Word | lexer.go:142-158 | The token carries the text it was given. Its kind is identifier exactly when the text is none of the six keywords, and otherwise is the keyword whose spelling equals the text. |
| Lexing.WordEnd | lexer.go:139-141 | The end of the run: every character before it is a letter or digit, and the character at it (if any) is not. |
| Lexing.Lexer.ReadNumber | lexer.go:161-167 | The cursor ends at the end of the maximal digit run. The token is a number carrying exactly those digits. |
| Lexing.DigitsEnd | lexer.go:163-165 | Every character before the end is a digit, and the character at the end (if any) is not. |
| Lexing.Lexer.ReadString | lexer.go:169-181 | The token's text is exactly the characters between the quotes, with no escape handling, and the cursor ends past the closing quote. With no closing quote the result is the unterminated-string error. |
| Lexing.QuoteEnd | lexer.go:171-174 | No character before the end is a quote; the end is a quote or the end of the input. |
| Lexing.Lexer.PeekNext | lexer.go:183-188 | The character after the cursor, or 0 when there is none. |
| Lexing.Peek | lexer.go:183-188 | The next character when it exists, 0 otherwise. |
| LexingProofs.ScanWellSpelled | lexer.go:56-134 | Every token of a successful scan is well spelled. Identifiers are letter-led runs of letters and digits that are not keywords. Numbers are non-empty digit runs. String texts hold no quote. Every other kind carries its fixed spelling, and end of input carries "". |
| LexingProofs.StepWellSpelled | lexer.go:56-130 | The token of any one step is well spelled. |
| LexingProofs.WordWellSpelled | lexer.go:137-159 | A word read at a letter is a well-spelled identifier or keyword. |
| LexingProofs.NumberWellSpelled | lexer.go:161-167 | A number read at a digit is a non-empty digit run. |
| LexingProofs.ScanSpellsInput | lexer.go:56-131 | For input without quotes, the concatenated texts of the tokens of a successful scan are the input with its whitespace removed. |
| LexingProofs.StepSpelling | lexer.go:58-127 | A token that is not a string carries exactly the characters consumed for it, and none of them is whitespace. |
| LexingProofs.OperatorSpelling | lexer.go:66-127 | Each operator and punctuation token carries exactly the one or two characters read. |
| LexingProofs.SpellStep | lexer.go:56-131 | One step adds to the joined token text exactly the characters it reads, minus whitespace. |
| LexingProofs.ScanErrorBlamesInput | lexer.go:53-135 | A failed scan names a real culprit: an unknown character that occurs in the input, a `!`, `&` or `\|` that occurs without its partner, or an opening quote with no closing quote after it. |
| Decimal.Text | compiler.go:146 | The `%d` text of a natural number is a non-empty digit run without a leading zero, and reading it back gives the number. |
| Decimal.IntText | compiler.go:146 | The `%d` text of an integer: a minus sign before the digits of a negative value, the digits otherwise. |
| Decimal.AtoiNonZero | parser.go:193 | `strconv.Atoi` with its error ignored: a non-zero value comes only from a digit run, optionally after one `+` or `-`; any other text, the empty text included, reads as 0. |
| Decimal.AtoiIntText | parser.go:193 | Reading back what `%d` prints gives the number, negative numbers included. |
| Decimal.AtoiSign | parser.go:193 | Before a digit run, a `+` keeps the value and a `-` negates it. |
| Decimal.TextInjective | compiler.go:217-220 | Distinct numbers have distinct decimal texts. |
| Parsing.BinaryOperatorKnown | parser.go:122-188 | The tags with a binary precedence are exactly the ten operators a binary expression may carry. |
| Parsing.Parser.constructor | parser.go:12-14 | A new parser holds the tokens with the cursor at 0. |
| Parsing.Parser.Parse | parser.go:16-25 | The result is `ProgramFrom` of the tokens from the cursor. It is the statements in order up to the end-of-input token, or the first error, or `NoProgress` at a token that starts no statement. The cursor stays on a token. |
| Parsing.ParseTokens | parser.go:16-25 | Every program the parser returns carries only the ten binary operators. |
| Parsing.ProgramWellFormed | parser.go:16-25 | Parsing the rest of the program adds only well-formed statements to those already read. |
| Parsing.Parser.ParseStatement | parser.go:27-40 | The statement is chosen by its first token. Any other first token gives no statement and leaves the cursor where it was. |
| Parsing.StatementAt | parser.go:27-40 | A statement that is read moves the cursor forward and stays on a token. No statement leaves the cursor unmoved. |
| Parsing.Parser.ParseAssignment | parser.go:42-55 | It agrees with `AssignmentAt`: a missing `=` or `;` is the matching error, and a success leaves the cursor past the `;`. |
| Parsing.Parser.ParsePrintStatement | parser.go:57-65 | It agrees with `PrintAt`: a missing `;` is the error. |
| Parsing.Parser.ParseIfStatement | parser.go:67-85 | It agrees with `IfAt`: a missing `(` or `)` is the matching error, and the else block is read only when `else` immediately follows the then block. |
| Parsing.Parser.ParseWhileStatement | parser.go:87-100 | It agrees with `WhileAt`: a missing `(` or `)` is the matching error. |
| Parsing.Parser.ParseBlock | parser.go:102-116 | It agrees with `BlockAt`: a missing `{` is the error, and the statements are kept in order up to the matching `}`. |
| Parsing.BlockAt | parser.go:102-116 | A block that is read moves the cursor past its `}` and stays on a token. |
| Parsing.Parser.ParseExpression | parser.go:118-120 | It agrees with `ExprAt` at the loosest level. |
| Parsing.Parser.ParseLogicalOr | parser.go:122-131 | It agrees with `ExprAt` at level 0 (`\|\|`). |
| Parsing.Parser.ParseLogicalAnd | parser.go:133-142 | It agrees with `ExprAt` at level 1 (`&&`). |
| Parsing.Parser.ParseEquality | parser.go:144-153 | It agrees with `ExprAt` at level 2 (`==`, `!=`). |
| Parsing.Parser.ParseComparison | parser.go:155-164 | It agrees with `ExprAt` at level 3 (`<`, `>`). |
| Parsing.Parser.ParseAdditive | parser.go:166-175 | It agrees with `ExprAt` at level 4 (`+`, `-`). |
| Parsing.Parser.ParseMultiplicative | parser.go:177-188 | It agrees with `ExprAt` at level 5 (`*`, `/`). |
| Parsing.FoldLevel | parser.go:166-175 | A level's loop stops exactly at the first token that is not an operator of that level, and never passes the last token. |
| Parsing.Parser.ParsePrimary | parser.go:190-221 | It agrees with `PrimaryAt`: a literal, an identifier or a parenthesised expression; a missing `)` or a token that cannot start a primary is the matching error. |
| Parsing.PrimaryAt | parser.go:190-221 | A primary that is read moves the cursor forward and stays on a token. |
| Parsing.ExprWellFormed | parser.go:118-188 | Every expression the precedence chain builds carries only the ten operators. |
| ParsingProofs.ParseRoundTrip | parser.go:16-221 | Printing any program the parser can build (number literals of any sign, printed as `%d` prints them), with the fewest parentheses the precedence chain needs, and parsing the tokens gives back the same program. |
| ParsingProofs.ParseExpressionRoundTrip | parser.go:118-221 | Parsing the printing of any expression, followed by any tokens that are not a binary operator, gives back the same tree and stops right after it. |
| ParsingProofs.ExprRoundTrip | parser.go:122-221 | Any tree laid out at any level of the chain is read back whole at that level. |
| ParsingProofs.StmtRoundTrip | parser.go:27-100 | Any statement laid out as tokens is read back as the same statement, with the cursor right after it. |
| ParsingProofs.IfElseRoundTrip | parser.go:67-85 | An if with an else block laid out as tokens is read back with that else block attached. |
| ParsingProofs.IfThenRoundTrip | parser.go:67-85 | An if without else, followed by anything but `else`, is read back with no else block. |
| ParsingProofs.WhileRoundTrip | parser.go:87-100 | A while laid out as tokens is read back as the same while. |
| ParsingProofs.BlockRoundTrip | parser.go:102-116 | A block laid out as tokens is read back with its statements in order, blocks nesting. |
| ParsingProofs.TopLevelRoundTrip | parser.go:16-25 | Statements laid out up to the end-of-input token are read back in order as the program. |
| ParsingProofs.SameLevelGroupsLeft | parser.go:166-175 | `a op b op' c`, with `op` and `op'` on the same level, parses as `(a op b) op' c`. |
| ParsingProofs.TighterGroupsRight | parser.go:166-188 | `a op b op' c`, with `op'` binding tighter than `op`, parses as `a op (b op' c)`. For example, `1 + 2 * 3` has a `+` root whose right child is the `*`. |
| ParsingProofs.MissingSemicolonRejected | parser.go:51-53 | `x = 5` with no `;` is rejected with the missing-`;` error. |
| ParsingProofs.StrayTokenStops | parser.go:18-23 | A program starting with a token that starts no statement, and is not end of input, stops with `NoProgress` at 0. |
| CodeGen.Compiler.constructor | compiler.go:16-24 | A new compiler has no slots, no lines and no labels, and keeps the system and architecture it was given. |
| CodeGen.Compiler.Compile | compiler.go:26-36 | The lines are the prologue, then the compilation of each statement in order, then the epilogue, joined by newlines. The new state is `CompileProgram` of the old one; an error is the first one met. |
| CodeGen.CompileProgram | compiler.go:26-36 | The final state extends the initial one: lines only appended, slots kept, labels only taken. |
| CodeGen.Compiler.GeneratePrologue | compiler.go:38-53 | The prologue of `linux`, `darwin` or `windows` is appended; any other system gets none. |
| CodeGen.Compiler.GenerateEpilogue | compiler.go:55-68 | The exit sequence of the system is appended; any other system gets none. |
| CodeGen.Compiler.CompileStatement | compiler.go:70-85 | The result and the new state are those of `CompileStmt` for the statement's variant. |
| CodeGen.CompileStmt | compiler.go:70-141 | Compiling a statement only appends lines, keeps every existing slot and only takes labels. |
| CodeGen.Compiler.CompileStatements | compiler.go:110-112 | A statement list compiles in order, stopping at the first error. |
| CodeGen.CompileList | compiler.go:29-31 | Compiling a statement list only appends lines, keeps every existing slot and only takes labels. |
| CodeGen.Compiler.CompileAssignment | compiler.go:87-93 | The value is compiled, a new name gets slot `len(variables)` while a known name keeps its slot, and the store line is appended. |
| CodeGen.Compiler.CompilePrint | compiler.go:95-100 | The value is compiled and the push/call/cleanup lines are appended. |
| CodeGen.Compiler.CompileIf | compiler.go:102-124 | The lines follow this order: condition code, `cmp`, `je else`, then-body, `jmp end`, `else:`, else-body if present, `end:`. Both labels are taken after the condition is compiled. |
| CodeGen.Compiler.CompileWhile | compiler.go:126-141 | Both labels are taken before the condition is compiled. The lines follow this order: `start:`, condition code, `cmp`, `je end`, body, `jmp start`, `end:`. |
| CodeGen.Compiler.CompileExpression | compiler.go:143-215 | The operand text and the new state are those of `CompileExpr`. |
| CodeGen.CompileExpr | compiler.go:143-215 | An expression never creates a slot. A literal or a name emits nothing and changes nothing. A binary expression yields `eax`. |
| CodeGen.Compiler.CompileOperator | compiler.go:162-210 | The operator's lines are appended. `&&` takes one label and `\|\|` two. Any tag outside the ten is the unknown-operator error. |
| CodeGen.Compiler.NextLabel | compiler.go:217-220 | The counter goes up by one before the label is formatted, so labels are `label_1`, `label_2`, ...; nothing else changes. |
| CodeGenProofs.OperatorKnown | compiler.go:162-210 | The operator switch has code exactly for the ten operators, and fails with the tag otherwise. |
| CodeGenProofs.ExprCompiles | compiler.go:143-215 | An expression compiles exactly when every operator in it is one of the ten; otherwise the error names a tag outside them. |
| CodeGenProofs.StmtCompiles | compiler.go:70-141 | A statement compiles exactly when every operator in it is one of the ten. |
| CodeGenProofs.ListCompiles | compiler.go:29-31 | A statement list compiles exactly when every operator in it is one of the ten. |
| CodeGenProofs.ProgramCompiles | compiler.go:26-36 | Compile succeeds exactly on the programs whose operators are all among the ten, whatever the system. |
| CodeGenProofs.ListConcat | compiler.go:29-31 | Compiling `ss + ts` is compiling `ss` and then `ts` from where `ss` left off. |
| CodeGenProofs.ExprLabelCount | compiler.go:188-198 | An expression takes one label per `&&` and two per `\|\|`. |
| CodeGenProofs.StmtLabelCount | compiler.go:102-141 | A statement takes two labels per if and per while, plus those of its operators. |
| CodeGenProofs.ProgramLabelCount | compiler.go:26-36 | A fresh compiler's final label count is 2·(ifs + whiles) + ands + 2·ors. |
| CodeGenProofs.SlotsShape | compiler.go:89-91 | For distinct names taken in order, the slot map holds exactly those names, the i-th at slot i. |
| CodeGenProofs.AssignSlot | compiler.go:89-91 | An assignment to a new name appends it to the order; a known name changes nothing. |
| CodeGenProofs.StmtSlots | compiler.go:87-141 | After a statement the slots are those of the names assigned so far, in first-assignment order. |
| CodeGenProofs.ListSlots | compiler.go:29-31 | After a statement list the slots follow the first-assignment order of its names. |
| CodeGenProofs.ProgramSlots | compiler.go:89-91 | A fresh compiler's final slots are dense: the n names assigned anywhere in the program get slots 0..n-1 in first-assignment order, and no other name has a slot. |
| CodeGenLabels.LabelInjective | compiler.go:217-220 | Distinct label numbers give distinct labels. |
| CodeGenLabels.LabelLineInjective | compiler.go:217-220 | Distinct label numbers give distinct label lines. |
| CodeGenLabels.OperatorLabelsPlaced | compiler.go:188-207 | The lines of `&&` and `\|\|` place each label they take exactly once and jump only to those labels. |
| CodeGenLabels.ExprLabels | compiler.go:143-215 | Compiling an expression places every label it takes exactly once, places no older label, and jumps only to labels it takes. |
| CodeGenLabels.StmtLabels | compiler.go:102-141 | The same for a statement: each label taken is placed once, and every jump it adds targets one of them. |
| CodeGenLabels.ListLabels | compiler.go:29-31 | The same for a statement list. |
| CodeGenLabels.FrameLines | compiler.go:38-68 | No prologue or epilogue line places a label or jumps. |
| CodeGenLabels.ProgramLabels | compiler.go:26-36 | In the whole output every label 1..labelCount is placed exactly once, and every jump targets a label placed exactly once. |
| Pipeline.NeverInternal | main.go:22-29 | The chained stages succeed exactly when the lexer and the parser do, and the code generator's panic is never reached on what the parser hands it. |

## Left out

- `main.go` (main.go:9-40) is not part of this model. It reads the command line and the file, looks up the host system, writes the output file and prints messages. `Pipeline.CompileSource` takes the source text and the system name as parameters instead.
- Character classification: Go applies `unicode.IsSpace`, `IsLetter` and `IsDigit` to single bytes. The model states those tables for code points 0 to 255. It works on a string of characters, not bytes, so multi-byte text is outside the model.
- Decimal.Atoi: `strconv.Atoi` is modelled on unbounded integers, so its out-of-range clamping and the error it reports (ignored at parser.go:193) are not modelled. Its sign handling and its 0 for malformed text are modelled.
- Decimal.IntText: `%d` is modelled on unbounded integers, with no 64-bit width.
- Parsing.Parser.Parse: where the source loops forever on a token that starts no statement, the model returns `NoProgress` instead of running forever.
- Parsing.Parser.ParseBlock: as for Parse, end of input or a stray token inside a block gives `NoProgress` instead of a hang.
- The meaning of the emitted x86 instructions is not modelled. This includes the known defects that a nested right operand clobbers `eax`, that `div` is an unsigned division whose operand may be an immediate, which x86 does not accept, and that strings are placeholder labels with no storage. Only the text of the lines is modelled.
- Panics are modelled as error results. `panic`/`recover` itself is not.
- Reusing one `Compiler` for several `Compile` calls: the class allows it, but the whole-program lemmas are stated for a fresh compiler only.
- `Compile` returns a `[]byte`; the model returns the same text as a string.
- The `arch` field is kept but never read, as in the source.
- The panic on an unknown expression type (compiler.go:212-213) cannot arise: `Expression` is a closed datatype here.
- Parsing.Parser.constructor requires the tokens to end in the end-of-input token. `Tokenize` always returns such a sequence; on any other sequence the source indexes out of range.
