# Vig: VHDL lexer, analyzer and testbench generator in Dafny

Vig reads a VHDL source file, finds its entities and architectures and
writes a VHDL testbench skeleton for an entity. This project models the three
parts that do the work and proves properties of them:

- **The lexer** (`lexer.dfy`, module `VhdlLexer`) is a class `Lexer`.
  - Its fields are the ones the Rust lexer updates: the byte position, the current character and the rest of the characters.
  - Every method is proved equal to a pure specification over the source text and a character index.
  - `Scan(s, i)` is one call of `next_token` from index `i`. `Items(s, i)` is the whole iterator.
  - `lexer_props.dfy` (module `LexerProperties`) proves what each kind of token is. It states which characters a token consumes, that its text is exactly those characters, and that its span is the byte range they occupy.
- **The analyzer** (`analyzer.dfy`, module `VhdlAnalyzer`) is a class `Analyzer`.
  - It holds the comment-free token list and a cursor `pos`.
  - Each `parse_*` routine is a method proved equal to a pure function over `(tokens, pos)` that returns the result and the new position.
  - `analyzer_props.dfy` (module `AnalyzerProperties`) proves the grammar each routine accepts, where it leaves the cursor, and which error it reports.
- **The generator** (`generator.dfy`, module `TestbenchGenerator`) builds the testbench by appending text, as the source does.
  - Every `gen_*` method is proved to produce `Unlines` of a list of lines given by a function.
  - `generator_props.dfy` (module `GeneratorProperties`) proves the layout and port selection. It proves that the clock process appears exactly when a clock port exists, and the reset pulse exactly when a reset port exists. It also proves that type names print injectively.
- **Shared text helpers** are in `text.dfy` (module `VhdlText`):
  - UTF-8 lengths and Unicode white space;
  - ASCII character classes and lower-casing;
  - substring search and joining;
  - decimal printing, and Rust's `i64` parsing as an `Option`.

Where the tests disagree with the code, the model follows the code:

- `analyze_vhdl` keeps an entity name in the case it was written. `tests/analyzer_test.rs:112-116` expects `ENTITY MyEnt` to give `"myent"`, but the identifier token keeps `MyEnt`. The model keeps `MyEnt`.
- `lex_comment` advances over one `-` and then reads to the end of the line. So a comment's text starts at its *second* hyphen (`-- x` gives `- x`), although the comment beside that call says it skips the second one. `ScanComment` states the behaviour of the code.

## Model

| member | source | states |
|---|---|---|
| VhdlLexer.Span.Len | src/lexer.rs:97-99 | the length is the distance from start to end |
| VhdlLexer.TrySymbolMeaning | src/lexer.rs:172-206 | a symbol is found exactly for the fourteen symbol characters; it is two characters long exactly when one of the six two-character operators starts there |
| LexerProperties.TrySymbolOperators | src/lexer.rs:172-206 | the kind of each operator: `:=`, `=>`, `/=`, `<=`, `>=`, `**`, and their one-character prefixes when alone |
| VhdlLexer.LookupMeaning | src/lexer.rs:209-251 | a keyword lookup succeeds exactly when the table has the spelling, and returns that entry's kind |
| VhdlLexer.KeywordOrIdentifierMeaning | src/lexer.rs:209-251 | a word is the keyword its lower-cased spelling names, and Identifier when no keyword has that spelling |
| LexerProperties.KeywordCaseInsensitive | src/lexer.rs:209-212 | words equal up to letter case get the same token kind |
| VhdlLexer.Lexer.constructor | src/lexer.rs:159-168 | a new lexer is at index 0 and byte position 0 of the source |
| VhdlLexer.Lexer.Current | src/lexer.rs:254-256 | the current character, and nothing exactly at the end of the input |
| VhdlLexer.Lexer.Peek | src/lexer.rs:259-261 | the character after the current one, if any |
| VhdlLexer.Lexer.Advance | src/lexer.rs:264-269 | moves one character on, adding its UTF-8 length to the byte position; does nothing at the end |
| VhdlLexer.Lexer.ConsumeWhile | src/lexer.rs:272-289 | stops at the first character the predicate rejects; returns exactly the characters passed and the span from `start` to the new byte position |
| VhdlLexer.Lexer.SkipWhitespace | src/lexer.rs:292-300 | stops at the first character that is not white space |
| VhdlLexer.Lexer.LexIdentifier | src/lexer.rs:303-307 | the identifier read by `Scan` (see ScanIdentifier) |
| VhdlLexer.Lexer.LexNumber | src/lexer.rs:311-320 | the number read by `Scan` (see ScanNumber) |
| VhdlLexer.Lexer.LexComment | src/lexer.rs:323-329 | the comment read by `Scan` (see ScanComment) |
| VhdlLexer.Lexer.LexCharacter | src/lexer.rs:332-350 | the character literal or error read by `Scan` (see ScanCharacterLiteral) |
| VhdlLexer.Lexer.LexStringLiteral | src/lexer.rs:353-370 | the string literal or error read by `Scan` (see ScanStringLiteral) |
| VhdlLexer.Lexer.LexSymbol | src/lexer.rs:395-414 | the symbol or "unexpected character" error read by `Scan` (see ScanSymbol) |
| VhdlLexer.Lexer.NextToken | src/lexer.rs:373-415 | result and new index are those of the token specification `Scan` at the old index |
| VhdlLexer.Lexer.NextItem | src/lexer.rs:424-429 | the iterator yields nothing exactly at Eof, and otherwise the result of `next_token` |
| VhdlLexer.ItemsStep | src/lexer.rs:424-429 | the item sequence is empty at Eof, and otherwise the scanned result followed by the items after it |
| VhdlLexer.OkTokensStep | src/analyzer.rs:440 | keeping the successful items drops every error and keeps the tokens in order |
| VhdlLexer.LexOkTokens | src/analyzer.rs:440 | the loop collects exactly the successful tokens of the whole iterator |
| LexerProperties.OffsetSplit | src/lexer.rs:264-269 | the byte position after `b` characters is the position after `a` characters plus the UTF-8 size of the characters in between |
| LexerProperties.OffsetMonotone | src/lexer.rs:264-269 | the byte position grows strictly with every character consumed |
| LexerProperties.TokenStart | src/lexer.rs:292-300 | the first non-blank index at or after `i`; everything skipped is white space |
| LexerProperties.ScanSpanIsConsumed | src/lexer.rs:373-415 | every non-Eof result spans the bytes from the first non-blank character to where the lexer stopped |
| LexerProperties.ScanTextIsConsumed | src/lexer.rs:373-415 | a token's text is exactly the characters consumed; a comment's text leaves out its first hyphen |
| LexerProperties.ScanSpanLengthIsTextBytes | src/lexer.rs:373-415 | a non-comment token's span is as long as the UTF-8 encoding of its text |
| LexerProperties.EofIsStable | src/lexer.rs:379-382 | Eof has an empty span and leaves the lexer where it was, so it repeats |
| LexerProperties.ItemsEmptyIffOnlyWhitespace | src/lexer.rs:424-429 | the iterator yields nothing exactly when the input is all white space |
| LexerProperties.ItemsAtMostOnePerCharacter | src/lexer.rs:424-429 | the iterator yields at most one item per character, so it always ends |
| LexerProperties.ScanSymbol | src/lexer.rs:395-414 | two-character operators win over their prefixes; other symbol characters are one token each; any other character is an "unexpected character" error spanning that character alone |
| LexerProperties.ScanIdentifier | src/lexer.rs:303-307 | an identifier is the longest run of alphanumerics and `_`; its kind is the keyword classification of its text |
| LexerProperties.ScanNumber | src/lexer.rs:311-320 | a number is the longest run of digits, `.`, `_` and `e`, starting with a digit |
| LexerProperties.ScanComment | src/lexer.rs:323-329 | a comment runs to the end of the line, the newline excluded; its text starts at the second hyphen |
| LexerProperties.ScanCharacterLiteral | src/lexer.rs:332-350 | a quote, any character and a quote make a three-character literal; anything else is an "invalid character literal" error spanning from the quote to where lexing resumes: after the character following the quote, or after the quote when the input ends there |
| LexerProperties.StringAtErr | src/lexer.rs:353-370 | a string literal fails exactly when no closing quote follows; the error then spans to the end of the input |
| LexerProperties.ScanStringLiteral | src/lexer.rs:353-370 | a string literal runs to the first closing quote, quotes included, or is an "unclosed string literal" error exactly when there is none |
| LexerProperties.DispatchText | src/lexer.rs:373-415 | every successful token's text is the characters it consumed |
| VhdlAnalyzer.Significant | src/analyzer.rs:131-137 | the analyzer keeps only tokens that are neither comments nor Eof, never more than it was given |
| AnalyzerProperties.SignificantAppend | src/analyzer.rs:131-137 | dropping comments distributes over concatenation, so token order is kept |
| AnalyzerProperties.SignificantMembers | src/analyzer.rs:131-137 | a token is kept exactly when it was given and is neither a comment nor Eof |
| VhdlAnalyzer.Analyzer.constructor | src/analyzer.rs:131-137 | the analyzer starts at position 0 of the comment-free tokens |
| AnalyzerProperties.AtPastEnd | src/analyzer.rs:166-172 | reading past the end gives the Eof sentinel |
| VhdlAnalyzer.Analyzer.Advance | src/analyzer.rs:174-178 | moves one token on, never past the end |
| AnalyzerProperties.AdvBounds | src/analyzer.rs:174-178 | advancing adds one inside the list and stays put at its end |
| VhdlAnalyzer.Analyzer.Expect | src/analyzer.rs:180-194 | agrees with `ExpectAt` at the old position |
| AnalyzerProperties.ExpectOutcome | src/analyzer.rs:180-194 | `expect` succeeds exactly on the right kind, returning that token and moving on; otherwise it reports the expected kind, the kind and text found, and that token's span, and does not move |
| VhdlAnalyzer.Analyzer.Eat | src/analyzer.rs:196-203 | agrees with `EatAt` at the old position |
| AnalyzerProperties.EatOutcome | src/analyzer.rs:196-203 | `eat` moves on and answers true exactly when the token has the kind asked for |
| VhdlAnalyzer.Analyzer.SkipUntil | src/analyzer.rs:205-213 | agrees with `SkipUntilAt` at the old position |
| AnalyzerProperties.SkipUntilFirst | src/analyzer.rs:205-213 | `skip_until` stops at the first listed kind or at the end; every token passed is neither |
| AnalyzerProperties.SkipUntilReachesEnd | src/analyzer.rs:205-213 | it runs to the end exactly when no listed kind follows |
| VhdlAnalyzer.Analyzer.ParseEntity | src/analyzer.rs:216-241 | result and position are those of `EntityAt` |
| AnalyzerProperties.EntityWithoutPorts | src/analyzer.rs:216-241 | `entity N is` without `port` gives N with no ports, spanning up to the next `;`, and the cursor stops after it |
| AnalyzerProperties.EntityHead | src/analyzer.rs:216-241 | after `entity N is`, the entity is N with the port clause's ports, spanning from `entity` to the first `;` after the clause, with the cursor past it; a port clause error is passed on |
| AnalyzerProperties.PortClauseOutcome | src/analyzer.rs:222-229 | after `port` a `(` is required, or an "expected `(`" error is reported at the token found; after it the ports are those of the port list, closed as ClosePortClauseOutcome states |
| AnalyzerProperties.ClosePortClauseOutcome | src/analyzer.rs:226-228 | a port list error is passed on; otherwise `)` and then `;` are required, each missing one reported at the token found in its place, and the ports are the list's |
| AnalyzerProperties.EntitySpanAtEndOfInput | src/analyzer.rs:232-240 | with no `;` left, the entity's span ends at the Eof sentinel's offset 0 |
| VhdlAnalyzer.Analyzer.ParsePortList | src/analyzer.rs:243-254 | result and position are those of `PortListAt` |
| AnalyzerProperties.PortListStep | src/analyzer.rs:243-254 | a port list is one group's ports followed by the list after an optional `;` |
| VhdlAnalyzer.Analyzer.ParsePortGroup | src/analyzer.rs:256-278 | result and position are those of `PortGroupAt` |
| AnalyzerProperties.MoreNamesShape | src/analyzer.rs:259-263 | the names after the first each follow a comma; the list ends at the first token that is not a comma |
| AnalyzerProperties.PortGroupExpansion | src/analyzer.rs:256-278 | `a, b, ... : dir type` gives one port per name in written order; the ports share direction, type and the span of the first name |
| VhdlAnalyzer.Analyzer.ParseDirection | src/analyzer.rs:280-304 | result and position are those of `DirectionAt` |
| AnalyzerProperties.DirectionOutcome | src/analyzer.rs:280-304 | `in`, `out`, `inout` and `buffer` are read and passed; anything else is an "expected port direction" error that consumes nothing |
| VhdlAnalyzer.Analyzer.ParseType | src/analyzer.rs:308-350 | result and position are those of `TypeAt` |
| VhdlAnalyzer.Analyzer.ParseVectorRange | src/analyzer.rs:317-331 | result and position are those of `VectorRangeAt` |
| AnalyzerProperties.TypeOutcome | src/analyzer.rs:308-350 | `std_logic`, `integer`, `boolean` and any identifier are read as one token; `std_logic_vector` goes on to its optional range (VectorRangeAt from the next token); every other token is an "expected type" error that consumes nothing |
| AnalyzerProperties.VectorBoundsByPosition | src/analyzer.rs:317-328 | high and low come from the first and second number, whether the range says `downto`, `to` or neither |
| AnalyzerProperties.VectorWithoutRange | src/analyzer.rs:329-331 | `std_logic_vector` without a parenthesised range is `(0, 0)` |
| AnalyzerProperties.BoundRoundTrip | src/analyzer.rs:319 | printing an i64 and reading it back gives the same bound |
| AnalyzerProperties.BoundOfMalformed | src/analyzer.rs:319 | text that is not an i64 reads as bound 0 |
| VhdlAnalyzer.Analyzer.ParseArchitecture | src/analyzer.rs:354-385 | result and position are those of `ArchitectureAt` |
| VhdlAnalyzer.Analyzer.ParseArchitectureHead | src/analyzer.rs:355-360 | result and position are those of `ArchitectureHeadAt` |
| VhdlAnalyzer.Analyzer.ParseDeclarations | src/analyzer.rs:365-371 | result and position are those of `DeclarationsAt` |
| AnalyzerProperties.DeclarationsSkip | src/analyzer.rs:365-371 | declarations end, with none, at `begin` or at the end of input; a `signal` declaration is parsed and put in front of the rest, its error passed on; every other token is skipped |
| AnalyzerProperties.DeclarationsEnd | src/analyzer.rs:365-371 | successful declarations leave the cursor on `begin` or at the end of input |
| AnalyzerProperties.ArchitectureHead | src/analyzer.rs:355-360 | `architecture A of E is` gives the names A and E and moves past `is` |
| AnalyzerProperties.ArchitectureOutcome | src/analyzer.rs:354-385 | the architecture is named A of E, its signals are the declarations before `begin` and its span ends at the last token before the position skipping to `end architecture ... ;` stops at; a declaration error is passed on |
| VhdlAnalyzer.Analyzer.SkipUntilEndArchitecture | src/analyzer.rs:387-397 | position is that of `SkipEndArchitectureAt` |
| AnalyzerProperties.SkipEndArchitectureStopsAtFirst | src/analyzer.rs:387-397 | skipping stops at the first `end architecture` and moves past its `;` |
| AnalyzerProperties.SkipEndArchitectureToEnd | src/analyzer.rs:387-397 | with no `end architecture` left it runs to the end of the tokens |
| VhdlAnalyzer.Analyzer.ParseSignalDecl | src/analyzer.rs:399-422 | result and position are those of `SignalDeclAt` |
| AnalyzerProperties.SignalDeclOutcome | src/analyzer.rs:399-422 | `signal n : T [:= v] ;` gives n, T and v with a span from `signal` to the `;`, and moves past the `;`; without the `;` it is an "expected `;`" error at the token found; a type error is passed on |
| VhdlAnalyzer.Analyzer.ParseDefaultValue | src/analyzer.rs:424-431 | the value is the collected token texts joined by spaces, the position where collecting stopped |
| AnalyzerProperties.DefaultPartsUntilSemicolon | src/analyzer.rs:424-431 | the default value collects the text of every token up to the next `;` or the end |
| AnalyzerProperties.DefaultValueOutcome | src/analyzer.rs:406-411 | without `:=` there is no default; with it, the default is the following token texts joined by single spaces, up to `;` |
| VhdlAnalyzer.Analyzer.Analyze | src/analyzer.rs:140-162 | result and position are those of `AnalyzeAt` |
| AnalyzerProperties.AnalyzeStep | src/analyzer.rs:140-162 | other tokens are skipped; an entity or architecture is parsed and put in front of the rest, in source order; the first error ends the analysis |
| AnalyzerProperties.AnalyzeNothing | src/analyzer.rs:140-162 | tokens with no `entity` or `architecture` analyze to an empty result |
| VhdlAnalyzer.PrefixResultAssoc | src/analyzer.rs:146-151 | collecting in front of a collection is collecting in front of the concatenation |
| VhdlAnalyzer.AnalyzeVhdl | src/analyzer.rs:438-443 | lexes, drops lexical errors and comments, and analyzes: the result is `AnalyzeSource` |
| TestbenchGenerator.GenComponent | src/generator.rs:120-146 | the text is the lines of `ComponentLines`, each ended by a newline |
| GeneratorProperties.ComponentText | src/generator.rs:120-146 | a component is its header and footer, with one port line per port between `port (` and `);` when there are ports; all lines but the last end with `;` |
| TestbenchGenerator.GenSignals | src/generator.rs:149-160 | the text is one signal declaration line per port |
| TestbenchGenerator.GenDutInstance | src/generator.rs:163-181 | the text is the lines of `DutLines` |
| GeneratorProperties.DutText | src/generator.rs:163-181 | the instance maps every port to the signal of the same name, comma separated; with no ports it is `uut: N` then a lone `;` |
| TestbenchGenerator.GenClockProcess | src/generator.rs:184-196 | the text is the lines of `ClockLines` |
| GeneratorProperties.ClockHalfPeriod | src/generator.rs:184-196 | both waits last half the period rounded down, so an odd period loses one nanosecond |
| TestbenchGenerator.GenStimulusProcess | src/generator.rs:199-252 | the text is the lines of `StimulusLines` |
| GeneratorProperties.StimulusMarkers | src/generator.rs:199-252 | the stimulus has a reset section exactly when a reset port is given, and never the clock process header |
| GeneratorProperties.ResetLinesMarkers | src/generator.rs:211-218 | the reset section is present exactly when a reset name is given |
| GeneratorProperties.HintPortsMembers | src/generator.rs:225-232 | a port gets an example line exactly when it is `in` or `inout` and is neither the clock nor the reset |
| GeneratorProperties.HintPortsAppend | src/generator.rs:225-232 | the example lines keep the port order |
| GeneratorProperties.FindClockPortFirst | src/generator.rs:99-105 | the clock is the first qualifying port, and none is found exactly when no port qualifies |
| GeneratorProperties.FindResetPortFirst | src/generator.rs:108-117 | the reset is the first `in` port containing "rst" or "reset" in any case, and none is found exactly when no port qualifies |
| GeneratorProperties.FindPortFirst | src/generator.rs:102-104 | `find` returns the first match, and nothing exactly when there is none |
| GeneratorProperties.TypeDefaultValueByKind | src/generator.rs:88-96 | vectors all start at `(others => '0')`; other types start at `'0'` like `std_logic`; a vector's default differs from every scalar's |
| GeneratorProperties.TypeDefaultValueNonEmpty | src/generator.rs:88-96 | every type has a non-empty initial value |
| GeneratorProperties.TypeToVhdlInjective | src/generator.rs:75-85 | different built-in types, i64 vector bounds included, print as different text |
| GeneratorProperties.VectorTextInjective | src/generator.rs:78-80 | a vector type's text determines both bounds |
| TestbenchGenerator.GenerateTestbench | src/generator.rs:18-72 | the testbench is the lines of `TestbenchLines`, each ended by a newline |
| GeneratorProperties.TestbenchNaming | src/generator.rs:19-70 | the testbench entity is named after the entity with `_tb`, and the text ends its architecture last |
| GeneratorProperties.ClockProcessIffClockPort | src/generator.rs:56-59 | the testbench has a clock process exactly when the entity has a clock port |
| GeneratorProperties.ResetPulseIffResetPort | src/generator.rs:61-67 | the testbench drives a reset pulse exactly when the entity has a reset port |

## Left out

- Unicode letters and case: `is_alphabetic`, `is_alphanumeric` and `to_lowercase` are modelled on ASCII only. White space and UTF-8 lengths cover all of Unicode.
- The `Display` implementations of `LexError`, `AnalyzeResult` and `AnalyzeError` (human-readable messages) are not modelled. Analyzer errors are a datatype naming the expected and found kinds and text.
- `src/main.rs` (command line, file reading and writing, printing) is not part of this model.
- The Rust `Iterator` over `Chars` becomes an index into the source, with the byte position kept alongside. Borrowing and lifetimes have no counterpart.
- TestbenchGenerator.GenStimulusProcess: requires `PeriodFits` (ten times the period fits in a `u64`). Beyond that bound the source's `period_ns * 10` overflows, and the model does not state the wrapped or panicking behaviour.
- TestbenchGenerator.GenerateTestbench: requires `PeriodFits` for the same reason.
- Some Rust routines are split into helper methods, each proved against its own function, to keep proofs small. This affects `ParseArchitectureHead`, `ParseDeclarations` and `ParseVectorRange` in the analyzer, and `PushLine`, `PushResetPulse`, `PushHints`, `PushText`, `PushPreamble` and `PushClockProcess` in the generator. Their behaviour is unchanged.
- VhdlLexer.Span.Len: requires `start <= end`. The analyzer can build a span whose end precedes its start (EntitySpanAtEndOfInput), and there `end - start` underflows in Rust (a panic in debug builds, a wrap-around in release builds). No code in the lexer, analyzer or generator calls `len`, so that case is left unmodelled.
- The case-folding expectation of `tests/analyzer_test.rs:112-116` is not modelled; the code keeps the written case (see above).
