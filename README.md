# lox-vm core in Dafny

A model of the single-pass bytecode compiler and stack machine of `lox-vm`, a
Rust implementation of the first chapters of clox. The model covers:

- the token table: `TokenType`, its `Display` text and its `FromStr` parse;
- the hand-written scanner: the `Scanner` class with its cursor, its line
  counter and its routines for whitespace, comments, strings, numbers,
  identifiers and one- or two-character operators;
- the precedence ladder, the parse-rule table and the `Parser` record;
- the chunk: opcodes, their byte encoding, the code, line and constant
  arrays, and the disassembler;
- the Pratt compiler: `advance`, `consume`, the `emit_*` family,
  `parse_precedence` and the prefix and infix actions, and `compile`;
- the virtual machine's fetch–decode–execute loop.

Each routine that changes state is a method of a class that keeps the fields
of the Rust struct: `Scanning.Scanner`, `Parse.Parser`, `Chunks.Chunk`,
`Compiling.Compiler` and `Vm.VM`. Each method is proved equal to a pure
reference function of the old state. The properties the code promises are
proved about those functions: round trips, the shape of the chunk, the
invariants the compiler keeps, termination, and the expected bytecode of the
compiler's own unit tests.

Places where the Rust code panics are explicit `Fault` outcomes rather than
preconditions:

- the scanner's `todo!`;
- `unwrap`/`expect` on an empty token slot;
- the `Literal` and `String` actions, which have no arm in the compiler;
- `unreachable!`;
- out-of-bounds indexing in the disassembler and the VM;
- the arithmetic opcodes, which have no arm in the VM loop.

A number is kept as its lexeme: `Value` is `Parsed(lexeme)` or
`Negated(value)`, because the model has no floating point.

Where the code and its description disagree, the model follows the code:

- `compile` never consults `had_error`. A source whose group is missing its
  `)` still compiles: the error is reported, but a chunk is returned.
- `Display` spells the brace kinds `[` and `]`, although the scanner produces
  them from `{` and `}`. `Scanning.LexemeMatchesDisplay` states this exception
  explicitly.

## Model

| member | source | states |
|---|---|---|
| Tokens.DisplayToken | src/token.rs:23-27 | a token displays as its category's text, never empty, and for a non-literal category that text parses back to the category |
| Tokens.FromStr | src/token.rs:126-171 | a successful parse never yields a literal kind (Identifier, String, Number, Eof); every failure is `UnknownTokenType` |
| Tokens.Display | src/token.rs:80-124 | the definition of the category display table; its properties are stated by `DisplayFromStr`, `FromStrDisplay`, `DisplayInjective` and `LiteralKindsRejected` |
| Tokens.FromStrAccepts | src/token.rs:129-171 | a string parses exactly when it is one of the 19 punctuation strings or one of the 16 keywords |
| Tokens.DisplayFromStr | src/token.rs:80-171 | round trip: whatever `from_str` accepts displays as the same string |
| Tokens.FromStrDisplay | src/token.rs:80-171 | round trip: every non-literal category's display text parses back to that category |
| Tokens.LiteralKindsRejected | src/token.rs:102-121 | the four literal kinds display as IDENTIFIER, STRING, NUMBER and EOF, and `from_str` rejects those texts |
| Tokens.DisplayInjective | src/token.rs:80-124 | distinct categories display differently |
| Tokens.TablesDisjoint | src/token.rs:129-171 | no string is both punctuation and a keyword |
| Tokens.NoPrefixKeywords | src/token.rs:153-169 | keyword recognition matches the whole text: "andy" and "while_true" are rejected while "and" and "while" are accepted |
| Scanning.SpanEnd | src/scanner.rs:121-126 | the end of a peek-while loop: not before the start, within the input once it moved, past the first character when that one is in the class, and stopped at a character outside the class |
| Scanning.SpanEndRun | src/scanner.rs:141-143 | every character a peek-while loop steps over is in its class |
| Scanning.SkipWs | src/scanner.rs:82-108 | skipping whitespace never moves the cursor or the line counter backwards and stays within the input |
| Scanning.SkipWhitespaceSpec | src/scanner.rs:82-108 | after skipping, the line counter grew by the newlines skipped; every character skipped is blank or inside a `//` comment, and the cursor is at the end or at a character that is neither blank nor the start of a comment; a lone `/` stops the skip |
| Scanning.SkipWsSkipsOnlyBlanksAndComments | src/scanner.rs:82-108 | every character the skip passes over is blank or lies in a `//` comment, with no newline between the comment's slashes and it |
| Scanning.CommentHasNoNewline | src/scanner.rs:93-97 | a `//` comment runs to the next newline without consuming it, so it adds no line |
| Scanning.NextToken | src/scanner.rs:26-80 | a scan always makes progress; the lexeme is the text between the start and the new cursor; the line never decreases; the token is `Eof` exactly when the input is exhausted |
| Scanning.TokenAt | src/scanner.rs:29-76 | a scan at a non-blank character starts there, ends within the input, and never yields `Eof` |
| Scanning.Emit | src/scanner.rs:110-118 | `make_token` as a scan result: a token of the given type on the current line whose lexeme is the text from the start to the cursor, clipped to the input, with the cursor state unchanged |
| Scanning.EndOfInput | src/scanner.rs:77-78 | at the end of the input the scan yields an `Eof` token with an empty lexeme and the current line |
| Scanning.OneOrTwoCharOperator | src/scanner.rs:42-69 | `!`, `=`, `<` and `>` take a following `=` into the lexeme, and only then; the lexeme parses back to the token's category |
| Scanning.SingleCharDisplay | src/scanner.rs:31-41 | a single-character token's lexeme is that character, and it equals the category's display text except for the braces |
| Scanning.LexemeMatchesDisplay | src/scanner.rs:30-72 | every non-literal token's lexeme is its category's display text, except that braces scan as `{` `}` but display as `[` `]` |
| Scanning.OperatorDisplay | src/scanner.rs:42-69 | a `!`, `=`, `<` or `>` always scans to a non-literal operator whose lexeme is its display text |
| Scanning.LiteralScanned | src/scanner.rs:70-71 | a scan that starts at a quote or a digit and succeeds yields a literal kind |
| Scanning.WordDisplay | src/scanner.rs:155-176 | a word always scans successfully, never as a brace, and as a keyword its lexeme is the keyword's display text |
| Scanning.StringLiteralSpec | src/scanner.rs:120-138 | a string runs to the next quote, counting the newlines inside it; without a closing quote it fails with `UnterminatedString` carrying the line and the start offset |
| Scanning.DigitRunToken | src/scanner.rs:140-153 | a run of digits followed by neither a digit nor a dot scans as exactly that number |
| Scanning.NumberLiteralSpec | src/scanner.rs:140-153 | a number is the longest digits[.digits] prefix: its lexeme has that shape, it is followed by no digit, and a dot is taken only when a digit follows it |
| Scanning.IdentifierSpec | src/scanner.rs:155-176 | an identifier is the longest run of letters, digits and underscores; it is the keyword `from_str` names, or else `Identifier` |
| Scanning.WordTypeOfWord | src/scanner.rs:171-175 | a word that starts with a letter or an underscore classifies as a keyword or as `Identifier`, never as punctuation |
| Scanning.Scanner.constructor | src/scanner.rs:17-24 | a new scanner starts at offset 0 on line 1 |
| Scanning.Scanner.Next | src/scanner.rs:178-181 | the cursor moves one place and the character under the old cursor is returned, if any |
| Scanning.Scanner.Peek | src/scanner.rs:183-185 | the character under the cursor, present exactly when the cursor is inside the input |
| Scanning.Scanner.PeekNext | src/scanner.rs:187-189 | the character one past the cursor, present exactly when that position is inside the input |
| Scanning.Scanner.MakeToken | src/scanner.rs:110-118 | a token of the given type on the current line whose lexeme is the text from `start` to the cursor, clipped to the input |
| Scanning.Scanner.NextIs | src/scanner.rs:191-198 | the cursor moves exactly when the expected character is next, and the answer says so |
| Scanning.Scanner.StringBody | src/scanner.rs:121-126 | the `while let` loop of `string` stops at the next quote or the end of the input, and the line grows by the newlines it passed |
| Scanning.Scanner.SkipWhitespace | src/scanner.rs:82-108 | the loop leaves cursor and line where `SkipWs` says |
| Scanning.Scanner.StringLiteral | src/scanner.rs:120-138 | the loop yields the token, or the error, and the state that `StringToken` describes |
| Scanning.Scanner.NumberLiteral | src/scanner.rs:140-153 | the two digit loops yield the token and the cursor that `NumberToken` describes |
| Scanning.Scanner.IdentifierOrKeyword | src/scanner.rs:155-176 | the loop yields the token and the cursor that `IdentifierToken` describes |
| Scanning.Scanner.ScanToken | src/scanner.rs:26-80 | one call yields the result and the new start, cursor and line that `NextToken` describes |
| Scanning.ScanStep | src/scanner.rs:26-80 | on any line, when the cursor sits on a token's first character with nothing to skip, the scanned categories are that token's category followed by those scanned from just after it |
| Scanning.PunctuationTrace | src/scanner.rs:205-258 | from any point in the test input, the remaining scans yield the remaining expected categories |
| Scanning.ScanPunctuationGolden | src/scanner.rs:205-258 | scanning "+-.,({;*})>>===!!==<<=/" yields Plus, Minus, Dot, Comma, LeftParen, LeftBrace, Semicolon, Star, RightBrace, RightParen, Greater, GreaterEqual, EqualEqual, Bang, BangEqual, Equal, Less, LessEqual, Slash, Eof |
| Parse.Level | src/parse.rs:3-16 | precedences are ranked 0..10 in declaration order, with `None` lowest and `Primary` highest |
| Parse.LevelsInDeclarationOrder | src/parse.rs:3-16 | the derived order lists the eleven levels in declaration order, and the rank is injective |
| Parse.LevelInjective | src/parse.rs:3-16 | two precedences of the same rank are equal |
| Parse.AtMostTotal | src/parse.rs:3-16 | the derived order is total and antisymmetric |
| Parse.AssignmentBelowTerm | src/parse.rs:285-288 | `Assignment <= Term` holds, and the reverse does not |
| Parse.Next | src/parse.rs:20-34 | `next` moves one level up, except that `Primary` stays `Primary`; it never moves down |
| Parse.GetRule | src/parse.rs:81-279 | only the ten binary operators have an infix action (Binary); the others have precedence None; `-` `+` are Term, `*` `/` Factor, `!=` `==` Equality, the four comparisons Comparison |
| Parse.AdvanceParser | src/parse.rs:55-58 | `advance` moves the current token to previous, empties current, and keeps both flags |
| Parse.Parser.constructor | src/parse.rs:46-53 | a new parser has no tokens and both flags cleared |
| Parse.Parser.Advance | src/parse.rs:55-58 | the method changes the record as `AdvanceParser` says |
| Chunks.Encode | src/chunk.rs:13-17 | every opcode encodes below 7 |
| Chunks.Decode | src/chunk.rs:23-37 | exactly the bytes 7..255 fail, with `UnknownOpCode`; a decoded byte re-encodes to itself |
| Chunks.DecodeEncode | src/chunk.rs:23-37 | round trip: decoding an opcode's byte gives that opcode |
| Chunks.EncodeInjective | src/chunk.rs:2-17 | distinct opcodes have distinct bytes |
| Chunks.Array.constructor | src/chunk.rs:53-55 | a new array is empty |
| Chunks.Array.Write | src/chunk.rs:57-59 | `write` appends the value |
| Chunks.Chunk.constructor | src/chunk.rs:63-69 | a new chunk has empty code, lines and constants |
| Chunks.Chunk.Write | src/chunk.rs:71-78 | `write` appends the byte to the code and the line to the lines, keeping them the same length |
| Chunks.Chunk.AddConstant | src/chunk.rs:81-84 | the value is appended to the pool, and the index returned is the old pool size modulo 256, which names the new value while the pool is below 256 entries |
| Chunks.Chunk.ReadConstant | src/chunk.rs:86-88 | the value read is the pool entry at `loc`, which must be below the pool size |
| Chunks.InstructionAt | src/chunk.rs:100-150 | one step of the disassembler: a simple opcode takes one byte, `Constant` two, an unknown byte is listed without advancing; it panics exactly on a missing line, operand or constant |
| Chunks.DisassembleFrom | src/chunk.rs:90-98 | the walk either lists the whole code or stops at a position inside it |
| Chunks.ListingReassembles | src/chunk.rs:90-150 | a complete listing reassembles to exactly the code listed, and every constant it shows is the pool entry its operand names |
| Chunks.WellFormedDisassembles | src/chunk.rs:95-97 | code made of complete instructions with in-range operands disassembles completely |
| Chunks.ListedWellFormed | src/chunk.rs:95-97 | conversely, a walk that lists the code completely has read complete instructions with in-range operands |
| Chunks.StuckAtUnknown | src/chunk.rs:144-150 | the walk gets stuck only at a byte that does not decode: the unknown-opcode arm is the one that returns the offset unchanged |
| Chunks.WellFormedConcat | src/chunk.rs:136-143 | appending complete instructions to complete instructions keeps the code complete |
| Chunks.OperandsConcat | src/chunk.rs:136-143 | the constant operands of concatenated code are the operands of each part in order |
| Chunks.Chunk.Disassemble | src/chunk.rs:90-98 | the loop started at offset 0 returns exactly the listing that `DisassembleFrom` gives from offset 0 |
| Compiling.ErrorAtF | src/compiler.rs:32-43 | in panic mode nothing changes; otherwise panic mode and the error flag are set and one report is added, at "end" for `Eof` and at the lexeme otherwise |
| Compiling.ErrorF | src/compiler.rs:24-26 | `error` panics exactly when there is no previous token, and otherwise leaves the scanner and the lookahead alone |
| Compiling.AdvanceF | src/compiler.rs:45-58 | advancing keeps the invariant, only grows what was written, strictly consumes input before `Eof`, shifts the lookahead into previous and stays at `Eof` once there |
| Compiling.ConsumeF | src/compiler.rs:60-72 | `consume` succeeds exactly when the lookahead has the requested category, and writes no bytecode |
| Compiling.EmitByteF | src/compiler.rs:136-148 | a byte is appended with the previous token's line; the absence of a previous token panics |
| Compiling.EmitBytesF | src/compiler.rs:150-157 | two bytes are appended with the previous token's line |
| Compiling.EmitOpF | src/compiler.rs:136-148 | an opcode's byte is appended, and the chunk stays well formed |
| Compiling.EmitConstantF | src/compiler.rs:159-165 | the value joins the pool and `Constant` with the old pool size modulo 256 is appended; the chunk stays well formed |
| Compiling.NumberF | src/compiler.rs:78-89 | `number` adds the previous token's lexeme to the pool, and keeps the chunk well formed |
| Compiling.ParsePrecedenceF | src/compiler.rs:171-205 | `parse_precedence` keeps the invariant, only grows what was written, and never consumes input backwards |
| Compiling.InfixLoopF | src/compiler.rs:186-204 | the infix loop keeps the invariant and only grows what was written |
| Compiling.DispatchF | src/compiler.rs:176-184 | running a parse action keeps the invariant and only grows what was written |
| Compiling.ExpressionF | src/compiler.rs:91-93 | `expression` keeps the invariant and only grows what was written |
| Compiling.GroupingF | src/compiler.rs:95-98 | `grouping` keeps the invariant and only grows what was written |
| Compiling.UnaryF | src/compiler.rs:100-114 | `unary` keeps the invariant and only grows what was written |
| Compiling.BinaryF | src/compiler.rs:116-134 | `binary` keeps the invariant and only grows what was written |
| Compiling.Compiler.constructor | src/compiler.rs:15-22 | a new compiler starts from the initial state on the given source |
| Compiling.Compiler.ErrorAt | src/compiler.rs:32-43 | the method changes the state as `ErrorAtF` says |
| Compiling.Compiler.Error | src/compiler.rs:24-26 | the method ends as `ErrorF` says |
| Compiling.Compiler.Advance | src/compiler.rs:45-58 | the method ends as `AdvanceF` says |
| Compiling.Compiler.Consume | src/compiler.rs:60-72 | the method ends as `ConsumeF` says |
| Compiling.Compiler.EmitByte | src/compiler.rs:136-148 | the method ends as `EmitByteF` says |
| Compiling.Compiler.EmitBytes | src/compiler.rs:150-157 | the method ends as `EmitBytesF` says |
| Compiling.Compiler.EmitOp | src/compiler.rs:136-148 | the method ends as `EmitOpF` says |
| Compiling.Compiler.EmitConstant | src/compiler.rs:159-165 | the method ends as `EmitConstantF` says |
| Compiling.Compiler.EmitReturn | src/compiler.rs:167-169 | `Return` is emitted as `EmitOpF` says |
| Compiling.Compiler.Number | src/compiler.rs:78-89 | the method ends as `NumberF` says |
| Compiling.Compiler.ParsePrecedence | src/compiler.rs:171-205 | the method ends as `ParsePrecedenceF` says |
| Compiling.Compiler.Prefix | src/compiler.rs:174-184 | the prefix step reports "expected expression" for a token without a prefix action and otherwise runs that action as `DispatchF` says |
| Compiling.Compiler.InfixLoop | src/compiler.rs:186-204 | the loop ends as `InfixLoopF` says |
| Compiling.Compiler.Dispatch | src/compiler.rs:176-184 | the method ends as `DispatchF` says, keeping the invariant and never adding input to consume |
| Compiling.Compiler.Expression | src/compiler.rs:91-93 | the method ends as `ExpressionF` says |
| Compiling.Compiler.Grouping | src/compiler.rs:95-98 | the method ends as `GroupingF` says |
| Compiling.Compiler.Unary | src/compiler.rs:100-114 | the method ends as `UnaryF` says |
| Compiling.Compiler.Binary | src/compiler.rs:116-134 | the method ends as `BinaryF` says |
| Compiling.Compile | src/compiler.rs:212-220 | `compile` succeeds exactly when `CompileF` does, with the same chunk contents or the same error |
| Compiling.CompileF | src/compiler.rs:212-220 | the reference definition of `compile`; its properties are stated by `CompileEnds`, `CompileDemandsEof` and `CompiledChunkShape` |
| CompilerSteps.AdvanceShifts | src/compiler.rs:45-58 | advancing after a successful scan shifts the lookahead to previous and installs the new token and cursor |
| CompilerSteps.NumberPrefix | src/compiler.rs:78-89 | a number operand adds its lexeme to the pool and emits `Constant` before the infix loop runs |
| CompilerSteps.NumberOperand | src/compiler.rs:186-191 | a number followed by a token of lower precedence is the whole operand |
| CompilerSteps.UnaryPrefix | src/compiler.rs:100-114 | `-` compiles its operand at Unary precedence and then emits `Negate` |
| CompilerSteps.GroupingPrefix | src/compiler.rs:95-98 | a parenthesised group compiles its expression and consumes the `)` without emitting anything |
| CompilerSteps.BinaryInfix | src/compiler.rs:116-134 | a binary operator compiles its right operand one level above its own precedence and then emits its opcode (postfix order) |
| CompilerSteps.InfixLoopStops | src/compiler.rs:186-204 | the infix loop returns at once exactly when the lookahead binds less tightly than requested, and otherwise consumes input |
| CompilerSteps.CompileEnds | src/compiler.rs:212-219 | an expression followed by `Eof` compiles to its code plus `Return` on the `Eof` line |
| CompilerSteps.CompileDemandsEof | src/compiler.rs:212-219 | after the expression, compilation succeeds exactly when the lookahead is `Eof`, and fails otherwise with "Expected end of expression" |
| CompilerSteps.GoodParsePrecedence | src/compiler.rs:171-205 | `parse_precedence` keeps the chunk made of complete instructions whose constant operands are 0, 1, 2, ... |
| CompilerSteps.GoodInfixLoop | src/compiler.rs:186-204 | the infix loop keeps the chunk well formed |
| CompilerSteps.GoodDispatch | src/compiler.rs:176-184 | each parse action keeps the chunk well formed |
| CompilerSteps.GoodExpression | src/compiler.rs:91-93 | `expression` keeps the chunk well formed |
| CompilerSteps.GoodGrouping | src/compiler.rs:95-98 | `grouping` keeps the chunk well formed |
| CompilerSteps.GoodUnary | src/compiler.rs:100-114 | `unary` keeps the chunk well formed |
| CompilerSteps.GoodBinary | src/compiler.rs:116-134 | `binary` keeps the chunk well formed |
| CompilerSteps.CompiledChunkShape | src/compiler.rs:212-219 | a compiled chunk has one line per byte, ends in `Return`, uses the pool entries in order, and disassembles completely |
| CompilerGolden.ScanOne | src/compiler.rs:227 | "1" scans as Number "1" then Eof |
| CompilerGolden.ScanMinusTwelve | src/compiler.rs:232 | "-12" scans as Minus, Number "12", Eof |
| CompilerGolden.ScanOnePlusTwo | src/compiler.rs:239 | "1 + 2" scans as Number, Plus, Number, Eof with the blanks skipped |
| CompilerGolden.ScanMinusOnePlusTwo0 | src/compiler.rs:244 | "-1 + 2" scans as Minus, Number, Plus, Number |
| CompilerGolden.ScanMixed0 | src/compiler.rs:249 | "(-1 + 2) * 3 - -4" starts with LeftParen, Minus, Number |
| CompilerGolden.CompilesOne | src/compiler.rs:227-230 | "1" compiles to code [1, 0, 0] |
| CompilerGolden.CompilesMinusTwelve | src/compiler.rs:232-235 | "-12" compiles to code [1, 0, 2, 0] |
| CompilerGolden.CompilesOnePlusTwo | src/compiler.rs:239-242 | "1 + 2" compiles to code [1, 0, 1, 1, 3, 0] |
| CompilerGolden.CompilesMinusOnePlusTwo | src/compiler.rs:244-247 | "-1 + 2" compiles to code [1, 0, 2, 1, 1, 3, 0] |
| CompilerGolden.CompilesMixed | src/compiler.rs:249-252 | "(-1 + 2) * 3 - -4" compiles to code [1, 0, 2, 1, 1, 3, 1, 2, 5, 1, 3, 2, 4, 0] |
| Vm.Execute | src/vm.rs:40-61 | one iteration moves `ip` past the opcode (and past the operand of `Constant`) and prints nothing; the run stops with `Ok` exactly at `Return`, with `Runtime` exactly at an undecodable byte, and panics at the arithmetic opcodes |
| Vm.ConstantPushes | src/vm.rs:55-59 | `Constant` pushes the pool entry its operand names |
| Vm.NegateKeepsDepth | src/vm.rs:50-54 | `Negate` replaces the top of the stack by its negation and does nothing on an empty stack |
| Vm.ReturnPrintsTop | src/vm.rs:44-49 | `Return` pops and prints the top value, if any, and ends the run with `Ok` |
| Vm.RunFrom | src/vm.rs:29-65 | a run never moves `ip` backwards and never takes back what was printed |
| Vm.RunTakesIterations | src/vm.rs:29-65 | a run is `Iterations` rounds of the loop: all but the last continue, and the last one stops with the run's outcome and machine |
| Vm.IterationsBounded | src/vm.rs:29-65 | the loop goes round at least once and at most once per remaining byte of code plus the round that stops it |
| Vm.RunPrintsPoolValues | src/vm.rs:29-65 | every printed value is a pool constant or a negation of one |
| Vm.VM.constructor | src/vm.rs:19-24 | a new machine starts at `ip` 0 with an empty stack |
| Vm.VM.Run | src/vm.rs:29-65 | the loop ends with the outcome and the machine state that `RunFrom` describes |
| Vm.Interpret | src/vm.rs:19-27 | `interpret` runs a fresh machine over the chunk and returns what `RunFrom` describes |
| Vm.RunNegatedTwelve | src/vm.rs:29-65 | the chunk of "-12" prints the negation of 12 and finishes with `Ok` |
| Vm.RunAdditionHasNoArm | src/vm.rs:43-61 | the chunk of "1 + 2" reaches `Add`, for which the loop has no arm |

## Left out

- `src/main.rs` is not part of this model: it runs a hard-coded demo source, reads the `LOX_TRACE_EXECUTION` flag into a `OnceLock`, and calls `interpret` with a `String`, which does not match that function's signature.
- `src/common.rs` is not part of this model: it is a dead stub with a one-variant `OpCode` and a `Chunk` newtype, and `src/main.rs` never declares it as a module.
- The tracing output of the VM loop and all printing of the disassembler are left out. The disassembler returns the listing that it would print.
- Disassemble: on a byte that does not decode, the source's loop never advances and so never ends; the model ends the walk there with `Stuck(offset)` instead of looping.
- `Display` for the error types in `src/error.rs` is left out. Diagnostics are kept as structured `Report` values rather than text on standard error.
- f64 values are symbolic (`Parsed(lexeme)`, `Negated(value)`): the model does no floating-point parsing, printing or arithmetic. The `expect` on a lexeme that fails to parse as f64 never fires for scanned number lexemes, so it is not modelled.
- Chunks.Chunk.Write: lines are natural numbers. The source's `line: U where U: Into<u8>` cannot take the `usize` line the compiler passes, so no truncation is modelled.
- Chunks.Chunk.AddConstant: `len() as u8 - 1` is modelled with release-build wrap-around (the old pool size modulo 256). The debug-build overflow panic at exactly 256 constants is not modelled.
- Compiling.EmitConstantF: the `?` applied to the `u8` from `add_constant` has no meaning in Rust. The model treats the call as always succeeding.
- Compiling.Compiler.Prefix: is a helper method split out of `parse_precedence` (the prefix half). It is not a routine of the source.
- A scan error in `advance` panics at once: `parser.advance()` has just emptied the lookahead slot, and the error branch unwraps it. The model ends it with the `MissingToken` fault. The scanner's own errors (an unterminated string) reach that branch in the same way.
- `had_error` is set but never read by `compile`. The model records it in the same way and does not turn it into a failure.
- The VM arms for `Add`, `Subtract`, `Multiply` and `Divide` do not exist in the source. Reaching them is the `NoArm` fault.
- Statements, variables, strings as values, `nil`/`true`/`false` and the rest of the language are not implemented by the source and so are not modelled. Their rule-table entries are modelled.
