# Artistic Style and the benchmark's sink and pool, verified

A Dafny model of the formatter that OpenJPEG vendors (`thirdparty/astyle`) and of two
parts of its encode/decode benchmark (`experimental/opencl/bench_workers.c`), with
proofs about whole programs, whole texts and whole runs. `dafny verify dfyconfig.toml`
checks everything.

Code that updates fields in place is a class whose methods are proved against a
specification function; code that returns a value from a loop is a method with
invariants. The theorems are lemmas about those functions, so they hold of what the
methods do.

| file | what it models |
|---|---|
| `Stacks.dfy`, `Characters.dfy` | the vector used as a stack, bytes and white space |
| `HeaderStack.dfy` | ASBeautifier's header and temporary stacks against the syntax tree |
| `LineIndent.dfy`, `MisplacedLines.dfy` | the indent of a line, and two programs whose lines come out wrong |
| `PreprocessorStacks.dfy` | the clones that ASBeautifier keeps for `#if` branches |
| `ContinuationIndent.dfy` | the columns of an unfinished statement |
| `LeadingWhitespace.dfy` | `preLineWS`, and ASEnhancer's indenting and unindenting |
| `SwitchTracker.dfy` | ASEnhancer's switch variables and brace counts |
| `SwitchLayout.dfy`, `MisplacedClauses.dfy` | how far the lines of a switch are unindented, and clauses whose lines come out wrong |
| `LineSplitter.dfy`, `LineLaws.dfy` | ASFormatter's line assembly and splitting, and what it keeps over every run |
| `KeywordSearch.dfy` | the searches over sorted word lists |
| `StreamIterator.dfy`, `LineEnds.dfy` | reading lines with look-ahead, converting line ends |
| `Wildcmp.dfy` | the file-name matcher |
| `Encoding.dfy` | the UTF-8 and UTF-16 converters and their length functions |
| `Sink.dfy`, `WorkerPool.dfy` | the benchmark's memory sink, its workers and its rounds |

The stack machines work on tokens (a header with its condition, a brace, a semicolon,
a directive, a label), the rest on characters and bytes.

## What the code does not meet

Each of these is a theorem with its exact condition, and most have a lemma with an
input that fails.

- `lastLineHeader` outlives the statement of an `else`: on one line, `else x; if (y)`
  drops the brace of the block (`HeadersArePaths`, `StaleElseLosesTheBlock`,
  `StaleElseExample`).
- A header put back in the middle of a line moves that line (`IndentsAreDepths`,
  `LateElseMovesItsLine`); so does an opening brace with a header and a brace of its own
  behind it on the line, whoever owns it (`RunInHeaderAndBrace`, `BareBlockLosesAnIndent`).
- `utf16ToUtf8` writes the continuation bytes of a character only if more input follows,
  and forgets the code point between blocks (`RoundTrip`, `BlocksAgree`).
- `utf8LengthFromUtf16` counts two bytes too many for each surrogate pair of a
  little-endian text, and no block's length counts what the block before left unwritten:
  the assertions on the sizes fail, and a block of a file can be longer than its buffer
  (`Utf8LengthOf`, `LibrarySizes`, `BlockFitsItsBuffer`, `OwedByteDoesNotFit`). A block
  cut inside a character makes the converter read past it (`ReadsOnlyItsInput`).
- A line break can overwrite a ready line that nobody has read (`TextIsConserved`,
  `UndrainedLineIsLost`).
- The assertion in `processSwitchBlock` fails when the brace count was negative where
  the switch began (`AssertionNeverFailsExactly`, `AssertionFailsBelowZero`).
- A block comment between the clauses of a switch moves the line it shares with text:
  one indent to the right, or to the left where the end of a switch has settled the line
  (`CommentsMoveLines`, `CommentMovesRight`, `CommentMovesLeft`); a comment to the end of
  its line moves nothing (`LineCommentsMoveNothing`). A line that changes its depth is
  moved too, as by a comment between a label and its brace (`UnindentIsClauseDepth`,
  `CommentBeforeBrace`).
- The unindent that a brace behind a label waits for goes to a switch that opens on the
  same line (`InnerSwitchTakesTheUnindent`).
- `nextLine` does not count a single line end that closes the file (`ReadsEveryLine`),
  and position 0 doubles as "not peeking" (`ResetRestores`).
- The tab setters can be combined so that the white space has another width than the
  indent (`WidthIsTheIndent`), and so that the enhancer's indents are not the
  beautifier's (`IndentAddsIndents`, `FourUnderEight`). Force-tab-x indenting rewrites an
  irregular indent and throws on a blank line that has white space or is to be filled
  (`UnindentUndoesIndent`).
- `sink_skip` returns -1 for success too (`SkipBackOneLooksFailed`).

## Model

| member | source | states |
|---|---|---|
| `HeaderStack.HeadersArePaths` | thirdparty/astyle/ASBeautifier.cpp:2954-3023 | Over every program of simple statements, blocks, loops, `if`, `if`/`else` and `do`/`while`, laid out in any way: after each token `headerStack` is the path of enclosing headers and braces in the syntax tree, if and only if there is no `else` with an `if` behind it on its line and only ends of statements and blocks, at least one, between them. |
| `HeaderStack.StaleByPlace` | thirdparty/astyle/ASBeautifier.cpp:2954-3113 | What `lastLineHeader` holds at each `if` of a run is what the places of the tokens say. |
| `HeaderStack.HeadersAreClosed` | thirdparty/astyle/ASBeautifier.cpp:3363-3378 | At the end of such a program the stack is empty. |
| `HeaderStack.StaleElseLosesTheBlock` | thirdparty/astyle/ASBeautifier.cpp:2992-2995 | When the line still holds an `else` behind which only statements and blocks have ended, an `if` on it pops the open brace of the enclosing block. |
| `HeaderStack.StaleElseExample` | thirdparty/astyle/ASBeautifier.cpp:3113 | A concrete layout that does it: `else y; if (b)` on one line. |
| `HeaderStack.MeetPartner` | thirdparty/astyle/ASBeautifier.cpp:2998-3014 | An `else` (a closing `while`) puts back exactly the headers outside the innermost `if` (`do`) of the snapshot, and leaves that header and the pending ones in it. |
| `HeaderStack.TailHoldsOpenIf` | thirdparty/astyle/ASBeautifier.cpp:3363-3378 | The snapshot a statement leaves holds an `if` exactly when the statement ends in an `if` that the next `else` attaches to (the dangling-else rule). |
| `HeaderStack.RestackMoves` | thirdparty/astyle/ASBeautifier.cpp:3009-3013 | The restacking loop moves the outer end of the snapshot back in reverse order. |
| `HeaderStack.SnapshotMoves` | thirdparty/astyle/ASBeautifier.cpp:3374-3378 | The snapshot loop moves everything above the innermost open brace into the snapshot, innermost first. |
| `HeaderStack.CloseMoves` | thirdparty/astyle/ASBeautifier.cpp:3331-3378 | A closing brace restores the header stack and the temporary stacks of its block and ends the statement around it. |
| `HeaderStack.FollowsStmt` | thirdparty/astyle/ASBeautifier.cpp:2979-3379 | One statement, from any stacks and at any depth: the path at each of its tokens, and the stacks it leaves. |
| `LineIndent.IndentsAreDepths` | thirdparty/astyle/ASBeautifier.cpp:2015-2188 | For every program whose header stack is the path, in any layout, one-line blocks and run-in braces included: every line stands at the nesting depth of the token that opens it if and only if each line fits. A line that opens with a brace fits when the brace adjustment moves it left once for its owner (or it is at the margin already) and no header is put back on it uncompensated; any other line fits when no header is put back after its first token. |
| `LineIndent.RunsLine` | thirdparty/astyle/ASBeautifier.cpp:2146-2188 | One line: where it ends, and that it stands at the depth of its first token exactly when it fits. |
| `LineIndent.OneLineBlockFits` | thirdparty/astyle/ASBeautifier.cpp:2146-2158 | A block on one line of its own fits whoever owns its brace, unless headers are put back inside it. |
| `LineIndent.RunInFits` | thirdparty/astyle/ASBeautifier.cpp:2159-2188 | A line with a brace alone, or with statements and perhaps a header after it, fits unless headers are put back after the brace. |
| `LineIndent.RunInHeaderAndBrace` | thirdparty/astyle/ASBeautifier.cpp:2159-2175 | A line with a brace, statements, and a header with its own brace is moved left whoever owns the first brace: it fits exactly when that is due, or at the margin. |
| `MisplacedLines.BareBlockLosesAnIndent` | thirdparty/astyle/ASBeautifier.cpp:2159-2175 | A concrete program without any restack: in a bare block the line `{ while (a) {` stands at 0 instead of 1. |
| `MisplacedLines.LateElseMovesItsLine` | thirdparty/astyle/ASBeautifier.cpp:2998-3014 | A concrete program, `if (a)`, `if (b)`, `x; else` with `y;` on that line or the next: the line of the `else` does not stand at its depth. |
| `LineIndent.IndentStep` | thirdparty/astyle/ASBeautifier.cpp:2146-2188 | One token: what it does to the indent of its line. |
| `LineIndent.LineStep` | thirdparty/astyle/ASBeautifier.cpp:2015-2046 | The first token of a line: the indent is counted from the stacks. |
| `LineIndent.UndefinedStays` | thirdparty/astyle/ASBeautifier.cpp:2992-2995 | A run whose last state is defined has popped no empty vector anywhere. |
| `LineIndent.SettledStartsAfresh` | thirdparty/astyle/ASBeautifier.cpp:903-910 | The indent left by one line changes the indents of no later line, over any number of lines. |
| `LineIndent.IndentsOfLine` | thirdparty/astyle/ASBeautifier.cpp:1167-1222 | The indents of a file are the settled indent of its first line and the indents of the rest. |
| `LineIndent.Beautifier.constructor` | thirdparty/astyle/ASBeautifier.cpp:310-313 | A fresh beautifier: no header, one empty temporary stack. |
| `LineIndent.Beautifier.ComputePreliminaryIndentation` | thirdparty/astyle/ASBeautifier.cpp:2015-2046 | The loop counts the headers, and the braces that no header owns. |
| `LineIndent.Beautifier.ParseHeader` | thirdparty/astyle/ASBeautifier.cpp:2987-3113 | The new stacks, indent and `lastLineHeader` after a header. |
| `LineIndent.Beautifier.EndOfStatement` | thirdparty/astyle/ASBeautifier.cpp:3371-3378 | The two loops leave exactly the snapshot of the statement. |
| `LineIndent.Beautifier.CloseBrace` | thirdparty/astyle/ASBeautifier.cpp:3306-3379 | The new state after a closing brace. |
| `LineIndent.Beautifier.Parse` | thirdparty/astyle/ASBeautifier.cpp:2450 | The new state after any token. |
| `LineIndent.Beautifier.ParseCurrentLine` | thirdparty/astyle/ASBeautifier.cpp:2450-3660 | The new state after the tokens of a line. |
| `LineIndent.Beautifier.BeginBeautify` | thirdparty/astyle/ASBeautifier.cpp:903-910 | The line-scoped fields at the start of a line. |
| `LineIndent.Beautifier.AdjustParsedLineIndentation` | thirdparty/astyle/ASBeautifier.cpp:2146-2188 | The indent a line is left with after its leading brace is taken into account; never negative. |
| `LineIndent.Beautifier.Beautify` | thirdparty/astyle/ASBeautifier.cpp:1167-1222 | The state after a line and its indent are those of its token sequence, so the two theorems hold of what is written. |
| `LineIndent.Beautifier.BeautifyAll` | thirdparty/astyle/ASBeautifier.cpp:1167-1222 | A whole file, line by line: the indents that come out are those of its token sequence. |
| `PreprocessorStacks.RunsItem` | thirdparty/astyle/ASBeautifier.cpp:1952-2009 | For every well-nested tree of `#if`, `#elif`, `#else` and `#endif`, from any state of the stacks: each branch is beautified from the state saved at its `#if`, the state after `#endif` is the one the first branch left, the outputs are those of that recursive meaning, and all four stacks are as they were. |
| `PreprocessorStacks.RunsAll` | thirdparty/astyle/ASBeautifier.cpp:1952-2009 | The same for a sequence of such trees. |
| `PreprocessorStacks.RunsConditional` | thirdparty/astyle/ASBeautifier.cpp:1952-2009 | The same for one conditional. |
| `PreprocessorStacks.EndifRestores` | thirdparty/astyle/ASBeautifier.cpp:1981-2009 | `#endif` cuts both stacks back to the lengths saved at its `#if`, whatever clones the branches left. |
| `PreprocessorStacks.RunsElifs` | thirdparty/astyle/ASBeautifier.cpp:1973-1980 | Each `#elif` branch starts from the waiting clone, adds one clone to the active stack and changes nothing else. |
| `PreprocessorStacks.RunsElse` | thirdparty/astyle/ASBeautifier.cpp:1964-1972 | `#else` uses up the waiting clone. |
| `PreprocessorStacks.RunsBranch` | thirdparty/astyle/ASBeautifier.cpp:1964-1980 | An alternative branch is beautified from the waiting clone. |
| `PreprocessorStacks.Conditionals.constructor` | thirdparty/astyle/ASBeautifier.cpp:304-308 | All four stacks start empty. |
| `PreprocessorStacks.Conditionals.BeautifyText` | thirdparty/astyle/ASBeautifier.cpp:1145-1165 | A code line goes to the top of the active stack, or to the main beautifier, and steps only that one. |
| `PreprocessorStacks.Conditionals.ProcessIf` | thirdparty/astyle/ASBeautifier.cpp:1952-1963 | `#if` saves a new clone of the current beautifier and the two stack lengths; no object is shared. |
| `PreprocessorStacks.Conditionals.ProcessAlternative` | thirdparty/astyle/ASBeautifier.cpp:1964-1980 | `#else` moves the waiting object to the active stack, `#elif` clones it. |
| `PreprocessorStacks.Conditionals.ProcessEndif` | thirdparty/astyle/ASBeautifier.cpp:1981-2009 | `#endif` drops the objects pushed since its `#if`. |
| `PreprocessorStacks.Conditionals.Beautify` | thirdparty/astyle/ASBeautifier.cpp:1952-2009 | One source line: the new value of all stacks, with every clone still reached only once. |
| `PreprocessorStacks.MovedStaysDistinct` | thirdparty/astyle/ASBeautifier.cpp:1968-1970 | Moving the waiting clone aliases nothing. |
| `Wildcmp.Match` | thirdparty/astyle/astyle_main.cpp:2406-2462 | Nonzero exactly when the data is in the language of the pattern (`?` one character, `*` any run, letters compared with or without case), for all NUL-free strings; the loop terminates on (pattern left after `mp`, data left after `cp`, data left). |
| `Wildcmp.MatchesIsInLanguage` | thirdparty/astyle/astyle_main.cpp:2406-2462 | The recursive matching relation is the language of the pattern: the data splits into one piece for each pattern character. |
| `Wildcmp.NextStar` | thirdparty/astyle/astyle_main.cpp:2428-2436 | Remembering only the last star loses no match. |
| `Wildcmp.AttemptFails` | thirdparty/astyle/astyle_main.cpp:2449-2453 | A failed attempt after the last star leaves only later starts. |
| `Wildcmp.DataExhausted` | thirdparty/astyle/astyle_main.cpp:2457-2461 | At the end of the data the pattern matches exactly when only stars are left. |
| `Wildcmp.MatchRest` | thirdparty/astyle/astyle_main.cpp:2426-2462 | Everything after the first loop decides the match of the rest, from a null `mp` on. |
| `Wildcmp.StarTurn` | thirdparty/astyle/astyle_main.cpp:2428-2436 | Any star met, the first or a later one, reduces the search to what follows it. |
| `Wildcmp.SkipStars` | thirdparty/astyle/astyle_main.cpp:2457-2461 | The last loop and the end-of-pattern test. |
| `Encoding.Utf8BecomesUtf16` | thirdparty/astyle/astyle_main.cpp:3538-3607 | For every text, `utf8ToUtf16` of its UTF-8 form (section 3 of RFC 3629) is its UTF-16 form (section 2.1 of RFC 2781), surrogate pairs included, in either byte order. |
| `Encoding.DecodesScalar` | thirdparty/astyle/astyle_main.cpp:3550-3603 | One character. |
| `Encoding.ConvertsCut` | thirdparty/astyle/astyle_main.cpp:3643-3733 | `utf16ToUtf8` of a whole text is its UTF-8 form without the continuation bytes of the last character. |
| `Encoding.RoundTrip` | thirdparty/astyle/astyle_main.cpp:3643-3733 | UTF-8 to UTF-16 and back gives the text again, in either byte order, if and only if it is empty or its last character is ASCII. |
| `Encoding.TerminatorFlushes` | thirdparty/astyle/astyle_main.cpp:2614-2634 | With one more input byte, taken from the terminator, the result is the whole UTF-8 form and one zero byte. |
| `Encoding.BlocksAgree` | thirdparty/astyle/astyle_main.cpp:3646-3733 | Converting a stream block by block gives what converting it whole gives, if and only if every block but the last ends in a character whose continuation bytes are all 0x80 (the state is kept between blocks, the partial code point is not). |
| `Encoding.AsciiIsLost` | thirdparty/astyle/astyle_main.cpp:3646-3654 | A block that ends in an ASCII character is such a block. |
| `Encoding.PaysOwed` | thirdparty/astyle/astyle_main.cpp:3716-3730 | Pending continuation bytes are written before the next character, if input follows. |
| `Encoding.ReadsScalar` | thirdparty/astyle/astyle_main.cpp:3667-3693 | The byte-wise reader gives back the scalar value and its width, from a pair as from a single unit. |
| `Encoding.ReadsOnlyItsInput` | thirdparty/astyle/astyle_main.cpp:3657-3693 | Given the first `n` bytes of a text, the converter reads none past them if and only if they end between two characters. |
| `Encoding.Utf16LengthIsExact` | thirdparty/astyle/astyle_main.cpp:3614-3637 | `utf16LengthFromUtf8` is exactly the size `utf8ToUtf16` produces. |
| `Encoding.Utf8LengthOf` | thirdparty/astyle/astyle_main.cpp:3510-3532 | `utf8LengthFromUtf16` is the UTF-8 size for big-endian input, and two bytes more for each surrogate pair for little-endian input, where a surrogate read as a signed short takes the three-byte branch. |
| `Encoding.BlockSizes` | thirdparty/astyle/astyle_main.cpp:3510-3532 | A text converted in one block never needs more than `utf8LengthFromUtf16` says, and exactly that when the text is empty, or ends in ASCII and is big-endian or without surrogate pairs. |
| `Encoding.BlockFromAnyState` | thirdparty/astyle/astyle_main.cpp:3510-3532 | A block converted from any state fits the size computed for it if and only if it is left no more continuation bytes than it leaves itself, two more allowed for each surrogate pair of little-endian text. |
| `Encoding.BlockFitsItsBuffer` | thirdparty/astyle/astyle_main.cpp:799-842 | Over a file read in blocks, each block fits the buffer sized for it under that condition, and fills it exactly, as `readFile` asserts, if and only if the two numbers are equal. |
| `Encoding.WrittenAt` | thirdparty/astyle/astyle_main.cpp:3643-3733 | What is written for any block of a file: the bytes owed by the block before, then its own without those of its last character. |
| `Encoding.OwedByteDoesNotFit` | thirdparty/astyle/astyle_main.cpp:816-829 | A block that ends in U+00E9, and after it one that ends in ASCII and has no pair: one byte more is written than the size computed. |
| `Encoding.LibrarySizes` | thirdparty/astyle/astyle_main.cpp:2614-2634 | The library call fills its buffer exactly (the code asserts so) if and only if the text has no surrogate pair; otherwise it stays within it. |
| `Encoding.ASEncoding.StoreCodeUnit` | thirdparty/astyle/astyle_main.cpp:3597-3602 | A unit is stored in the requested byte order. |
| `Encoding.ASEncoding.StoreCodePoint` | thirdparty/astyle/astyle_main.cpp:3592-3602 | A code point is stored as one unit or as a surrogate pair. |
| `Encoding.ASEncoding.Utf8ToUtf16` | thirdparty/astyle/astyle_main.cpp:3538-3607 | The loop leaves exactly the specified bytes in the buffer. |
| `Encoding.ASEncoding.Utf16ToUtf8` | thirdparty/astyle/astyle_main.cpp:3643-3733 | The loop leaves the specified bytes in the buffer and the specified state for the next block. |
| `Encoding.ASEncoding.NextByte` | thirdparty/astyle/astyle_main.cpp:3657-3731 | One turn of the loop: one byte written, input read or a state nearer to the start. |
| `Encoding.ASEncoding.Utf16LengthFromUtf8` | thirdparty/astyle/astyle_main.cpp:3614-3637 | The loop returns twice the units counted. |
| `Encoding.ASEncoding.Utf8LengthFromUtf16` | thirdparty/astyle/astyle_main.cpp:3510-3532 | The loop returns the bytes counted. |
| `Encoding.ASEncoding.CountUnit` | thirdparty/astyle/astyle_main.cpp:3510-3532 | One turn of that loop: the bytes of a unit or of a pair. |
| `LineLaws.TextIsConserved` | thirdparty/astyle/ASFormatter.cpp:2669-2796 | Over every run of appends, breaks, splits, comments and drains: the non-white text of the lines handed out, the ready line and `formattedLine` is the non-white text appended, in order, if and only if no line break overwrites an undrained ready line with text in it; never is there more. |
| `LineLaws.UndrainedLineIsLost` | thirdparty/astyle/ASFormatter.cpp:2694-2701 | A family of runs that lose a line (`ThereIsOne` shows it is not empty): a long append after a semicolon makes a line ready, and a break follows with no drain between. |
| `LineLaws.EmptyLinesWereAsked` | thirdparty/astyle/ASFormatter.cpp:1748-1789 | Over every run no more empty lines are put in than were asked for and are not still waiting, and each follows a line with text: never two together, never after a blank line. |
| `LineLaws.AskedLinesComeOut` | thirdparty/astyle/ASFormatter.cpp:1748-1795 | Lines handed out one by one: between them stands an empty line exactly where one was asked for. |
| `LineLaws.BreaksOnce` | thirdparty/astyle/ASFormatter.cpp:2669-2723 | A line break asked for is made once, by the next text and not by the one after it. |
| `LineLaws.PadsAreCounted` | thirdparty/astyle/ASFormatter.cpp:2729-2767 | When a space is put before or after an operator, and that each is counted. |
| `LineLaws.StepAnswers` | thirdparty/astyle/ASFormatter.cpp:2780-2795 | One call: an empty line handed out uses up one request. |
| `LineLaws.CommentStaysMarked` | thirdparty/astyle/ASFormatter.cpp:7173-7179 | Over every run, cuts included, the remembered place of the comment is none, 0, or that of a `//` or `/*`, as `appendCharInsideComments` asserts. |
| `LineLaws.CutKeepsComment` | thirdparty/astyle/ASFormatter.cpp:7173-7179 | A comment behind a cut is not forgotten: a comment is marked in what is left. |
| `LineLaws.StepHolds` | thirdparty/astyle/ASFormatter.cpp:2669-2796 | The same for one call. |
| `LineLaws.SplitHolds` | thirdparty/astyle/ASFormatter.cpp:7100-7182 | A split loses no text and overwrites no ready line. |
| `LineLaws.CutHolds` | thirdparty/astyle/ASFormatter.cpp:7110-7170 | The cut itself loses only white space. |
| `LineLaws.CutDropsOnlyBlanks` | thirdparty/astyle/ASFormatter.cpp:7105-7163 | The cut line is the text before the point; the rest is the text after it without its leading blanks. |
| `LineLaws.OnlyBlanksAreSkipped` | thirdparty/astyle/ASFormatter.cpp:7160-7162 | A cut passes over no text of the input. |
| `LineLaws.RunKeepsPointsOnLine` | thirdparty/astyle/ASFormatter.cpp:6848-7065 | Over every run all ten split points stay within `0..formattedLine.length()`. |
| `LineLaws.StepKeepsPointsOnLine` | thirdparty/astyle/ASFormatter.cpp:6848-7065 | The same for one call. |
| `LineLaws.PointsKeepTheirPlace` | thirdparty/astyle/ASFormatter.cpp:7123-7172 | A point that survives a cut, promoted from pending or not, stands before the same text as before. |
| `LineLaws.SplitPointIsAPoint` | thirdparty/astyle/ASFormatter.cpp:7184-7243 | With a code length the options allow, the line is cut at one of the points that fit when one is at least ten characters in, otherwise at the first pending one. |
| `LineLaws.WhoWins` | thirdparty/astyle/ASFormatter.cpp:7184-7243 | Where a split cuts, by kind: a logical operator at least ten in beats a semicolon, both beat the rest; the paren goes before white space past it or at 7/10 of the length, the comma before that past it or at 3/10; otherwise the first pending point. Further right, and exactly how far, only where the rest is too long and the input line ends. |
| `LineLaws.PointsStandAtSeparators` | thirdparty/astyle/ASFormatter.cpp:6848-7043 | Over every run, cuts included, the semicolon, comma, paren and logical points stand at a separator of their own kind. |
| `LineLaws.CutsAtSeparator` | thirdparty/astyle/ASFormatter.cpp:6848-6945 | A text, a semicolon, comma, paren or blank with nothing near that forbids it, and more text than fits: the line is cut at that separator. |
| `LineLaws.CutsAtOperator` | thirdparty/astyle/ASFormatter.cpp:6952-7043 | The same behind a comparison, and behind or before a logical operator as the option says. |
| `LineLaws.WhatIsRemembered` | thirdparty/astyle/ASFormatter.cpp:6848-6945 | Which characters are remembered as a place to split, and what next to them forbids it: an iff. |
| `LineLaws.WhatOperatorsMark` | thirdparty/astyle/ASFormatter.cpp:6952-7043 | Which operators are, and where: sums and questions only behind an operand, no sign of an exponent, assignments and colons by the length of the line. |
| `LineLaws.PointersAreRemembered` | thirdparty/astyle/ASFormatter.cpp:7049-7065 | When the place of a pointer or reference sign is. |
| `LineLaws.WhenKeptWhole` | thirdparty/astyle/ASFormatter.cpp:7067-7096 | When a line is to be kept whole, and what becomes of its points: an iff. |
| `LineLaws.KeptWholeIsNotCut` | thirdparty/astyle/ASFormatter.cpp:7067-7182 | Such a line without points is not cut over any run, until it ends or splits are allowed again. |
| `LineLaws.BestPointIsFound` | thirdparty/astyle/ASFormatter.cpp:7188-7205 | A usable point is found whenever there is one. |
| `LineLaws.FirstPendingIsLeast` | thirdparty/astyle/ASFormatter.cpp:7207-7222 | The pending point chosen is the least, and 0 only if there is none. |
| `LineLaws.WhenItCuts` | thirdparty/astyle/ASFormatter.cpp:7100-7108 | A line that is too long is left whole exactly when a line is waiting, the point is its end, or it has no usable point. |
| `LineSplitter.LineAssembler.constructor` | thirdparty/astyle/ASFormatter.cpp:182-285 | An empty line, no point, no request. |
| `LineSplitter.LineAssembler.DoBreakLine` | thirdparty/astyle/ASFormatter.cpp:2772-2796 | The whole new state: lines, points, pads, the comment and the requests for empty lines. |
| `LineSplitter.LineAssembler.IsOkToSplitFormattedLine` | thirdparty/astyle/ASFormatter.cpp:7067-7096 | The answer and what the test clears. |
| `LineSplitter.LineAssembler.AdjustPoints` | thirdparty/astyle/ASFormatter.cpp:7123-7150 | All ten points after a cut. |
| `LineSplitter.LineAssembler.TestForTimeToSplitFormattedLine` | thirdparty/astyle/ASFormatter.cpp:7100-7182 | The whole new state, the blanks passed over in the input included. |
| `LineSplitter.LineAssembler.SplitAt` | thirdparty/astyle/ASFormatter.cpp:7107-7180 | The cut: the whole new state. |
| `LineSplitter.LineAssembler.AskForEmptyLine` | thirdparty/astyle/ASFormatter.cpp:7114-7122 | What a cut does to the requests, `break` and `continue` apart. |
| `LineSplitter.LineAssembler.DropBlanks` | thirdparty/astyle/ASFormatter.cpp:7152-7172 | The line left and its points without its leading blanks. |
| `LineSplitter.LineAssembler.GoForward` | thirdparty/astyle/ASFormatter.cpp:7160-7162 | The blanks of the input passed over when the line left is blank. |
| `LineSplitter.LineAssembler.CountBlanks` | thirdparty/astyle/ASFormatter.cpp:7161-7162 | The loop over those blanks. |
| `LineSplitter.LineAssembler.FindComment` | thirdparty/astyle/ASFormatter.cpp:7173-7179 | Where the first comment of the line left is. |
| `LineSplitter.LineAssembler.AppendText` | thirdparty/astyle/ASFormatter.cpp:2669-2723 | `appendChar`, `appendSequence` and `appendOperator`: the whole new state. |
| `LineSplitter.LineAssembler.StartComment` | thirdparty/astyle/ASFormatter.cpp:5580 | The comment is marked at the end of the line, then its opener appended. |
| `LineSplitter.LineAssembler.AppendSpacePad` | thirdparty/astyle/ASFormatter.cpp:2729-2745 | The whole new state. |
| `LineSplitter.LineAssembler.AppendSpaceAfter` | thirdparty/astyle/ASFormatter.cpp:2751-2767 | The whole new state. |
| `LineSplitter.LineAssembler.UpdatePointerOrReference` | thirdparty/astyle/ASFormatter.cpp:7049-7065 | The whole new state; no split is tried. |
| `LineSplitter.LineAssembler.TakeLine` | thirdparty/astyle/ASFormatter.cpp:1748-1789 | An empty line before the ready one, which goes on waiting, exactly when one is due; otherwise the ready line, once. |
| `SwitchTracker.BracesAreConserved` | thirdparty/astyle/ASEnhancer.cpp:567-571 | Over every run, `braceCount` less all the braces that the open switches have counted changes only by the braces met outside a switch or on skipped lines. |
| `SwitchTracker.BraceCountIsNet` | thirdparty/astyle/ASEnhancer.cpp:567-571 | `braceCount` is the braces opened less those closed, from the tokens alone. |
| `SwitchTracker.SkippedLinesStay` | thirdparty/astyle/ASEnhancer.cpp:634-646 | With case-indent on no line is unindented, whatever it holds, and the depth only counts the `switch` keywords. |
| `SwitchTracker.SkippedLineKeepsSwitch` | thirdparty/astyle/ASEnhancer.cpp:634-646 | Within a skipped line only the brace count changes. |
| `SwitchTracker.AssertionMeansEntry` | thirdparty/astyle/ASEnhancer.cpp:682 | From the keyword of a switch through any run that stays inside it to a closing brace of its own: the assertion `sw.switchBraceCount <= braceCount` holds there if and only if the brace count at the keyword, with the braces met since on skipped lines, is not negative. |
| `SwitchTracker.AssertionNeverFailsExactly` | thirdparty/astyle/ASEnhancer.cpp:682 | Over every run from the start the assertion never fails if and only if, at each closing brace met in a switch, that count at the keyword of its own switch is not negative. |
| `SwitchTracker.AssertionAtClose` | thirdparty/astyle/ASEnhancer.cpp:682 | One closing brace of a run, against the keyword of its own switch. |
| `SwitchTracker.AssertionWithoutSkips` | thirdparty/astyle/ASEnhancer.cpp:682 | On a run without skipped lines it never fails if and only if the brace count is not negative at the keyword of any switch in which a closing brace is met. |
| `SwitchTracker.AssertionFailsBelowZero` | thirdparty/astyle/ASEnhancer.cpp:682 | After a stray closing brace the next switch makes it fail. |
| `SwitchTracker.RunKeepsTracked` | thirdparty/astyle/ASEnhancer.cpp:624-734 | In every reachable state `switchDepth` is the height of `switchStack`, the unindent depth is at least that of the enclosing switch, one more in an unindented case, and the pop is never on an empty stack. |
| `SwitchTracker.StepKeepsTracked` | thirdparty/astyle/ASEnhancer.cpp:624-734 | One token keeps it. |
| `SwitchTracker.NestedIsNonnegative` | thirdparty/astyle/ASEnhancer.cpp:683-697 | No saved unindent depth is negative. |
| `SwitchLayout.UnindentIsClauseDepth` | thirdparty/astyle/ASEnhancer.cpp:101-160 | For structured text (blocks and switches nested anywhere; labels that fall through, are empty or have line breaks and comments before their first statement or brace; line and block comments anywhere): every line is unindented once for each braced clause around its first token, a line of comments between the clauses with the labels, if and only if each line fits, that is ends at the depth it began at or is settled there by the end of a switch, with one indent to spare exactly when a comment between clauses stands on it. Counts and stack come back unchanged in every case. |
| `SwitchLayout.CommentsMoveLines` | thirdparty/astyle/ASEnhancer.cpp:156-159 | Where no line changes its depth, all lines come out right if and only if no comment between clauses shares a line with text, unless no clause there is unindented, or one is and the end of a switch has settled the line. |
| `SwitchLayout.LineCommentsMoveNothing` | thirdparty/astyle/ASEnhancer.cpp:517-528 | So comments to the end of the line, which count only where their line begins, move nothing. |
| `MisplacedClauses.CommentMovesRight` | thirdparty/astyle/ASEnhancer.cpp:529-564 | In every text with a block comment behind the closing brace of a braced clause, that line is unindented by 0 instead of 1. |
| `MisplacedClauses.CommentMovesLeft` | thirdparty/astyle/ASEnhancer.cpp:156-159 | In every text with a block comment behind a switch that ends on its line, two braced clauses deep, that line is unindented by 3 instead of 2. |
| `MisplacedClauses.CommentBeforeBrace` | thirdparty/astyle/ASEnhancer.cpp:664-674 | In every text with a block comment between the colon of a label and its brace, the line of the label is unindented by 1 instead of 0. |
| `SwitchLayout.RunsSwitch` | thirdparty/astyle/ASEnhancer.cpp:624-734 | One switch statement, nested anywhere: what its lines show, and that it leaves all that is tracked as found. |
| `SwitchLayout.RunsClause` | thirdparty/astyle/ASEnhancer.cpp:702-734 | One clause, bare, with statements or with a block: what its lines show, and the depth it leaves. |
| `SwitchLayout.RunsLabel` | thirdparty/astyle/ASEnhancer.cpp:702-734 | A label without a brace keeps waiting for it through line breaks and comments. |
| `SwitchLayout.RunsOpening` | thirdparty/astyle/ASEnhancer.cpp:661-734 | A block in each of its layouts: when its lines begin to be unindented. |
| `SwitchLayout.InnerSwitchTakesTheUnindent` | thirdparty/astyle/ASEnhancer.cpp:128-134 | A switch that opens on the line of a brace behind a label takes the pending unindent: its clauses are unindented as if they stood in no block, and the rest of the block is not unindented. |
| `SwitchLayout.RunsGaps` | thirdparty/astyle/ASEnhancer.cpp:515-564 | Line breaks and comments change nothing that is tracked. |
| `SwitchLayout.RunsSwitchEnd` | thirdparty/astyle/ASEnhancer.cpp:679-700 | The closing brace of a switch settles its line and restores the enclosing switch. |
| `SwitchLayout.EndsSwitch` | thirdparty/astyle/ASEnhancer.cpp:679-700 | The whole state after that brace. |
| `SwitchTracker.Enhancer.constructor` | thirdparty/astyle/ASEnhancer.cpp:70-90 | The initial state. |
| `SwitchTracker.Enhancer.StartLine` | thirdparty/astyle/ASEnhancer.cpp:101-134 | The state at the start of a line; a case whose brace ended the last line is unindented from here. |
| `SwitchTracker.Enhancer.ParseToken` | thirdparty/astyle/ASEnhancer.cpp:567-649 | The whole new state after a token. |
| `SwitchTracker.Enhancer.ParseComment` | thirdparty/astyle/ASEnhancer.cpp:515-564 | A line comment marks its line only if it is first on it, a block comment anywhere. |
| `SwitchTracker.Enhancer.ParseAll` | thirdparty/astyle/ASEnhancer.cpp:567-649 | The loop over a run of tokens computes the run. |
| `SwitchTracker.Enhancer.ParseText` | thirdparty/astyle/ASEnhancer.cpp:567-623 | A token that is neither a line start, a comment nor a `switch`. |
| `SwitchTracker.Enhancer.ProcessSwitchBlock` | thirdparty/astyle/ASEnhancer.cpp:661-740 | The whole new state. |
| `SwitchTracker.Enhancer.OpenBrace` | thirdparty/astyle/ASEnhancer.cpp:666-676 | The whole new state. |
| `SwitchTracker.Enhancer.CloseBrace` | thirdparty/astyle/ASEnhancer.cpp:679-700 | The whole new state. |
| `SwitchTracker.Enhancer.CaseLabel` | thirdparty/astyle/ASEnhancer.cpp:702-734 | The whole new state. |
| `SwitchTracker.Enhancer.EndLine` | thirdparty/astyle/ASEnhancer.cpp:156-160 | What the line is unindented by; never negative. |
| `ContinuationIndent.CloserRestores` | thirdparty/astyle/ASBeautifier.cpp:2751-2793 | A closer brings back every stack of its opener exactly, whatever balanced text with assignments, commas and semicolons stands between, and a closer that begins its line is indented to the column its own opener recorded. |
| `ContinuationIndent.RunsAll` | thirdparty/astyle/ASBeautifier.cpp:3232-3235 | Balanced text touches nothing below the height of the opener around it. |
| `ContinuationIndent.SemicolonEndsStatement` | thirdparty/astyle/ASBeautifier.cpp:3232-3235 | A semicolon ends its statement: whatever balanced text it ends, all stacks are as before the statement, and the next line stands where a line stood then. |
| `ContinuationIndent.PartsAlignToTheirOpener` | thirdparty/astyle/ASBeautifier.cpp:3232-3235 | Inside an opener a comma or a semicolon leaves exactly the column of the opener above its height, and the next line is aligned to it. |
| `ContinuationIndent.AlignsToTheText` | thirdparty/astyle/ASBeautifier.cpp:1298-1336 | An opener with text behind it: its column is where that text stands, tabs included, within the least indent, the limit and the entry below. |
| `ContinuationIndent.HangsFromBelow` | thirdparty/astyle/ASBeautifier.cpp:1281-1296 | An opener that ends its line: continuation indents from the entry or line around it, or two indents where that is too far right. |
| `ContinuationIndent.AssignmentMovesItsLine` | thirdparty/astyle/ASBeautifier.cpp:3648-3650 | An assignment moves its own line exactly if it begins it unindented. |
| `ContinuationIndent.BlockRestoresDepth` | thirdparty/astyle/ASBeautifier.cpp:3307-3327 | A block in the middle of a statement gives back the paren depth of the text around it. |
| `ContinuationIndent.RunKeepsNested` | thirdparty/astyle/ASBeautifier.cpp:1908-1916 | In every reachable state the recorded heights rise up to the height of the stack. |
| `ContinuationIndent.BlockBraceEmpties` | thirdparty/astyle/ASBeautifier.cpp:2923-2935 | After any run, a block brace leaves no continuation column, and its line at the margin if there was one. |
| `ContinuationIndent.PurgedAllIsEmpty` | thirdparty/astyle/ASBeautifier.cpp:1908-1916 | From any sound state the purge ends with an empty stack. |
| `ContinuationIndent.StepKeepsSound` | thirdparty/astyle/ASBeautifier.cpp:1908-1916 | The base entry of the size stack stays 0, whatever the tokens. |
| `ContinuationIndent.RunRises` | thirdparty/astyle/ASBeautifier.cpp:1278-1336 | Through a whole run the columns rise from the outermost to the innermost exactly when no token falls: no hanging indent past the limit drops left of the entry below, no array brace outside a statement returns to the margin. |
| `ContinuationIndent.ColumnRises` | thirdparty/astyle/ASBeautifier.cpp:1278-1336 | One registration: its column is at least the one below exactly when it does not fall. |
| `ContinuationIndent.TabsReachTheirStops` | thirdparty/astyle/ASBeautifier.cpp:1303-1312 | Counting the tabs after an opener gives the visual column that tab stops give. |
| `ContinuationIndent.IndentStacks.constructor` | thirdparty/astyle/ASBeautifier.cpp:320-323 | Empty stacks over the base size 0. |
| `ContinuationIndent.IndentStacks.PopLastContinuationIndent` | thirdparty/astyle/ASBeautifier.cpp:1908-1916 | Both stacks after the pop. |
| `ContinuationIndent.IndentStacks.PopColumns` | thirdparty/astyle/ASBeautifier.cpp:3232-3235 | The stack cut to a size. |
| `ContinuationIndent.IndentStacks.PurgeAll` | thirdparty/astyle/ASBeautifier.cpp:2923-2927 | The loop terminates with an empty stack. |
| `ContinuationIndent.IndentStacks.RegisterContinuationIndent` | thirdparty/astyle/ASBeautifier.cpp:1278-1336 | The column and the paren column pushed. |
| `ContinuationIndent.IndentStacks.FollowingTabs` | thirdparty/astyle/ASBeautifier.cpp:1305-1310 | The loop over the tabs reaches the visual column of the next text. |
| `ContinuationIndent.IndentStacks.OpenBracket` | thirdparty/astyle/ASBeautifier.cpp:2751-2756 | The whole new state. |
| `ContinuationIndent.IndentStacks.CloseBracket` | thirdparty/astyle/ASBeautifier.cpp:2758-2793 | The whole new state. |
| `ContinuationIndent.IndentStacks.OpenBlock` | thirdparty/astyle/ASBeautifier.cpp:2920-2940 | The whole new state. |
| `ContinuationIndent.IndentStacks.CloseBlock` | thirdparty/astyle/ASBeautifier.cpp:3307-3327 | The whole new state. |
| `ContinuationIndent.IndentStacks.EndPart` | thirdparty/astyle/ASBeautifier.cpp:3232-3268 | The stack after a comma or a semicolon. |
| `ContinuationIndent.IndentStacks.Parse` | thirdparty/astyle/ASBeautifier.cpp:2450 | The whole new state after any token. |
| `ContinuationIndent.IndentStacks.ParseAll` | thirdparty/astyle/ASBeautifier.cpp:2450-3660 | The whole new state after any run of tokens. |
| `LeadingWhitespace.WidthIsTheIndent` | thirdparty/astyle/ASBeautifier.cpp:1248-1273 | For any tab and indent lengths and any order of the setters, the white space is as wide as `indentCount` indents and `spaceIndentCount` spaces if and only if the lengths are equal, or tabs are forced and are the indent string (or the indent is narrower than a tab), or neither tabs nor force are on, or there is no indent. |
| `LeadingWhitespace.ForcedIsNormal` | thirdparty/astyle/ASBeautifier.cpp:1250-1266 | With forced tabs the line is the one normal form of its width: tabs, then fewer spaces than a tab. |
| `LeadingWhitespace.NormalIsTheForm` | thirdparty/astyle/ASBeautifier.cpp:1250-1266 | A line is normal exactly when it is the normal form of its own width and text. |
| `LeadingWhitespace.UnindentUndoesIndent` | thirdparty/astyle/ASEnhancer.cpp:256-286 | `unindentLine` takes back what `indentLine` by the same amount put in, on every line in space and tab mode; in force-tab-x mode if and only if the line has text and a normal indent, or is empty and not to be filled (on other blank lines the call throws). |
| `LeadingWhitespace.CountsAreExact` | thirdparty/astyle/ASEnhancer.cpp:256-286 | The count each of the two calls returns is the white space by which the line has grown or shrunk, 0 if there was too little to take. |
| `LeadingWhitespace.BeautifiedLineIsRestored` | thirdparty/astyle/ASEnhancer.cpp:751-795 | So every line that `preLineWS` indents with forced tabs is restored. |
| `LeadingWhitespace.IndentAddsIndents` | thirdparty/astyle/ASEnhancer.cpp:256-286 | `indentLine` on a beautified line gives the line `preLineWS` gives for that many more indents, if and only if tabs are the indent string, or the mode is not force-tab-x, or no tab is completed and the line is still narrower than one. |
| `LeadingWhitespace.FourUnderEight` | thirdparty/astyle/ASBeautifier.cpp:492-519 | Settings under which they differ: forced tabs of eight over an indent string of four spaces. |
| `LeadingWhitespace.IndentedIs` | thirdparty/astyle/ASEnhancer.cpp:264-273 | Force-tab-x indenting gives the normal form of the greater width. |
| `LeadingWhitespace.UnindentedIs` | thirdparty/astyle/ASEnhancer.cpp:763-776 | Force-tab-x unindenting gives the normal form of the smaller width, or of the same width if there is too little to take. |
| `LeadingWhitespace.DivisionIs` | thirdparty/astyle/ASBeautifier.cpp:1257-1258 | The shares are the quotient and the remainder. |
| `LeadingWhitespace.ASBeautifier.constructor` | thirdparty/astyle/ASBeautifier.cpp:45-60 | The settings before any option. |
| `LeadingWhitespace.ASBeautifier.SetDefaultTabLength` | thirdparty/astyle/ASBeautifier.cpp:482-485 | The new settings. |
| `LeadingWhitespace.ASBeautifier.SetForceTabXIndentation` | thirdparty/astyle/ASBeautifier.cpp:492-498 | The new settings; the indent length is kept. |
| `LeadingWhitespace.ASBeautifier.SetTabIndentation` | thirdparty/astyle/ASBeautifier.cpp:503-508 | The new settings. |
| `LeadingWhitespace.ASBeautifier.SetSpaceIndentation` | thirdparty/astyle/ASBeautifier.cpp:515-519 | The new settings; forced tabs stay forced. |
| `LeadingWhitespace.ASBeautifier.MakePreLineWS` | thirdparty/astyle/ASBeautifier.cpp:1248-1273 | The white space of the specification, for counts of either sign; on counts that are not negative the one that the theorems are about. |
| `LeadingWhitespace.NegativeCounts` | thirdparty/astyle/ASBeautifier.cpp:1248-1273 | What negative counts come to: each counts as none; forced tabs of another length first add them up; forced tabs of the same length take whole tabs off for missing spaces. |
| `LeadingWhitespace.ASBeautifier.Divide` | thirdparty/astyle/ASBeautifier.cpp:1254-1264 | Quotient and remainder rounded towards zero. |
| `LeadingWhitespace.ASBeautifier.IndentAndSpace` | thirdparty/astyle/ASBeautifier.cpp:1268-1272 | The two loops. |
| `LeadingWhitespace.ASEnhancer.ConvertForceTabIndentToSpaces` | thirdparty/astyle/ASEnhancer.cpp:167-181 | Every leading tab becomes `tabLength` spaces. |
| `LeadingWhitespace.ASEnhancer.ReplaceTab` | thirdparty/astyle/ASEnhancer.cpp:174-179 | One turn of the loop. |
| `LeadingWhitespace.ASEnhancer.ConvertSpaceIndentToForceTab` | thirdparty/astyle/ASEnhancer.cpp:188-196 | As many tabs as fit; no result on a blank line, where the call throws. |
| `LeadingWhitespace.ASEnhancer.FindFirstNotOf` | thirdparty/astyle/ASEnhancer.cpp:193 | The place of the first text, none on a blank line. |
| `LeadingWhitespace.ASEnhancer.IndentLine` | thirdparty/astyle/ASEnhancer.cpp:256-286 | The new line, none where the call throws, and the count of characters. |
| `LeadingWhitespace.ASEnhancer.UnindentLine` | thirdparty/astyle/ASEnhancer.cpp:751-795 | The new line, none where the call throws, and the count of characters. |
| `LeadingWhitespace.ASEnhancer.UnindentForceX` | thirdparty/astyle/ASEnhancer.cpp:763-776 | The force-tab-x branch. |
| `LeadingWhitespace.ASEnhancer.EraseIndent` | thirdparty/astyle/ASEnhancer.cpp:777-792 | Nothing is erased when there is too little white space. |
| `StreamIterator.LinesRebuildText` | thirdparty/astyle/astyle_main.cpp:145-223 | Lines and line ends, put back together, are the text; there is one line more than line ends. |
| `StreamIterator.TokensAreGreedy` | thirdparty/astyle/astyle_main.cpp:145-207 | Lines hold no line end; each line end is CR LF, LF CR, LF or CR, and a single one is not followed by its partner. |
| `StreamIterator.ReadsEveryLine` | thirdparty/astyle/astyle_main.cpp:145-223 | Reading to the end of the file returns every line; every line end is counted, except a single one that is the last character of the file. |
| `StreamIterator.EachKindIsCounted` | thirdparty/astyle/astyle_main.cpp:184-207 | When the file is read, the three counters have grown by the two-character, LF and CR line ends, a single one that ends the file apart. |
| `StreamIterator.OutputIsMostFrequent` | thirdparty/astyle/astyle_main.cpp:210-220 | The output line end of a file is its most frequent kind, Windows before Linux before Mac, if and only if by these counts. |
| `StreamIterator.OneKindIsKept` | thirdparty/astyle/astyle_main.cpp:210-220 | So a file with line ends of one kind keeps that kind. |
| `StreamIterator.SingleTrailingEol` | thirdparty/astyle/astyle_main.cpp:204-220 | A file whose only line end is its last character gets the Windows line end. |
| `StreamIterator.PeeksAreNextLines` | thirdparty/astyle/astyle_main.cpp:230-262 | Any number of `peekNextLine` calls return a prefix of what later `nextLine` calls return. |
| `StreamIterator.PeeksSeeEveryLine` | thirdparty/astyle/astyle_main.cpp:230-262 | Looking ahead to the end sees every line, but not the empty one behind a single line end that ends the file. |
| `StreamIterator.ResetRestores` | thirdparty/astyle/astyle_main.cpp:266-272 | The look-ahead can be undone, and `peekReset` then restores position, end-of-file flag and counters, if and only if something was read before it. |
| `StreamIterator.ASStreamIterator.constructor` | thirdparty/astyle/astyle_main.cpp:105-119 | The initial cursor. |
| `StreamIterator.ASStreamIterator.Get` | thirdparty/astyle/astyle_main.cpp:165-171 | Reading one character, with the end-of-file flag. |
| `StreamIterator.ASStreamIterator.ReadRecord` | thirdparty/astyle/astyle_main.cpp:163-176 | The loop reads up to and including the first line-end character. |
| `StreamIterator.ASStreamIterator.NextLine` | thirdparty/astyle/astyle_main.cpp:145-223 | The line, the cursor and the buffers after `nextLine`. |
| `StreamIterator.ASStreamIterator.ReadLine` | thirdparty/astyle/astyle_main.cpp:162-222 | The line, the cursor and the counters. |
| `StreamIterator.ASStreamIterator.CountEol` | thirdparty/astyle/astyle_main.cpp:178-207 | Which counter grows, and how far a two-character line end is skipped. |
| `StreamIterator.ASStreamIterator.ChooseOutputEOL` | thirdparty/astyle/astyle_main.cpp:210-220 | The line end chosen. |
| `StreamIterator.ASStreamIterator.PeekNextLine` | thirdparty/astyle/astyle_main.cpp:230-262 | The line and the cursor after `peekNextLine`. |
| `StreamIterator.ASStreamIterator.PeekReset` | thirdparty/astyle/astyle_main.cpp:266-272 | The cursor after `peekReset`. |
| `LineEnds.ConvertLineEnds` | thirdparty/astyle/astyle_main.cpp:355-436 | The result is the lines of the text joined by the target line end. |
| `LineEnds.KeepsLines` | thirdparty/astyle/astyle_main.cpp:355-436 | The conversion preserves the list of lines. |
| `LineEnds.OnlyTheTargetIsLeft` | thirdparty/astyle/astyle_main.cpp:355-436 | The converted text has line ends of the target kind only: no CR, no LF, or none but CR LF. |
| `LineEnds.LinesAndEnds` | thirdparty/astyle/astyle_main.cpp:355-436 | The lines meant are those of the text: with line ends CR LF, LF or CR between them they are the text, and no CR LF is taken apart. |
| `LineEnds.LastConversionWins` | thirdparty/astyle/astyle_main.cpp:355-436 | Converting to one line end and then to another is converting to the last at once, for all texts; so the conversion is idempotent. |
| `LineEnds.SameLines` | thirdparty/astyle/astyle_main.cpp:355-436 | Two texts convert to the same text exactly when they have the same lines. |
| `LineEnds.ConvertedIsJoined` | thirdparty/astyle/astyle_main.cpp:355-436 | What the loop writes is the lines joined. |
| `LineEnds.ConvertNext` | thirdparty/astyle/astyle_main.cpp:363-432 | One turn of the loop. |
| `KeywordSearch.FindHeader` | thirdparty/astyle/ASResource.cpp:665-702 | On a list of names sorted on name, the search with its early exit returns the word at the place exactly when the word is in the list and neither a comma, a closing paren nor, for `get`, `set` and `default`, a semicolon, open paren or equals sign follows. |
| `KeywordSearch.FindKeyword` | thirdparty/astyle/ASResource.cpp:705-725 | True exactly when the word at the place is the keyword and no comma or closing paren follows. |
| `KeywordSearch.FindOperator` | thirdparty/astyle/ASResource.cpp:728-745 | On a list sorted on length, the longest operator of the list that starts at the place, none exactly when none does. |
| `KeywordSearch.GetCurrentWord` | thirdparty/astyle/ASResource.cpp:749-760 | The longest name that starts at the place. |
| `KeywordSearch.HeadersStartNames` | thirdparty/astyle/ASResource.cpp:776-785 | A header can start exactly where a name starts that no name before it goes on into. |
| `KeywordSearch.NextIsFirstPastBlanks` | thirdparty/astyle/ASResource.cpp:823-832 | The next character is the first one past the blanks, a space if there is none. |
| `KeywordSearch.OperatorCharacters` | thirdparty/astyle/ASResource.cpp:788-800 | The characters that can begin an operator, one by one. |
| `KeywordSearch.WordAgainstHeader` | thirdparty/astyle/ASResource.cpp:673-686 | How a header compares with the text decides whether it is the word there. |
| `KeywordSearch.SmallerStart` | thirdparty/astyle/ASResource.cpp:677-681 | Why leaving the loop early loses no header. |
| `KeywordSearch.CompareEqual` | thirdparty/astyle/ASResource.cpp:175-178 | The order on names compares equal only on equal names. |
| `Sink.FileIsWhatWasWritten` | experimental/opencl/bench_workers.c:121-148 | After any run of writes, seeks and skips, with allocation failing at will, each place of the file holds the byte of the last write carried out over it, and 0 where none was; where a write goes and whether it is carried out are computed from the calls alone. |
| `Sink.SizeIsFurthest` | experimental/opencl/bench_workers.c:121-148 | The size of the file is the furthest place that a call carried out has moved to. |
| `Sink.RunIsMarked` | experimental/opencl/bench_workers.c:121-148 | Place, size and buffer after any run follow from the calls alone: a write adds its length, a seek sets the place, a skip adds to it; a call fails, and keeps the place, exactly when it ends outside 0 to 128 MiB, or past the smallest doubled buffer for what was reached with no memory given. |
| `Sink.StepIsSound` | experimental/opencl/bench_workers.c:121-148 | Every call keeps position, size and capacity in order and within 128 MiB, the capacity 0 or a power of two from 4096, and a failed call leaves everything as it was. |
| `Sink.DoublingStaysWithin` | experimental/opencl/bench_workers.c:127-128 | Doubling reaches the end and stays within the limit. |
| `Sink.MemorySink.constructor` | experimental/opencl/bench_workers.c:121 | An empty file. |
| `Sink.MemorySink.Grow` | experimental/opencl/bench_workers.c:122-131 | The buffer grown, its contents and the zeros after them kept. |
| `Sink.MemorySink.WriteBytes` | experimental/opencl/bench_workers.c:132-137 | The file after a write, and the result. |
| `Sink.MemorySink.Store` | experimental/opencl/bench_workers.c:135-136 | The bytes laid over the file. |
| `Sink.MemorySink.SeekTo` | experimental/opencl/bench_workers.c:138-142 | The file after a seek: zeros up to a place past its end. |
| `Sink.MemorySink.SkipBy` | experimental/opencl/bench_workers.c:143-148 | The file after a skip, and the result. |
| `Sink.MemorySink.Perform` | experimental/opencl/bench_workers.c:121-148 | A whole run on the buffer is the run on the file. |
| `WorkerPool.EveryJobRunsOnce` | experimental/opencl/bench_workers.c:259-274 | However the workers interleave, with the read and the write of `next_job++` as separate steps: when all have finished, every job was run exactly once and `next_job` is `job_count` plus the number of workers. |
| `WorkerPool.NoJobIsShared` | experimental/opencl/bench_workers.c:259-274 | At no time does a worker run a job that another runs or that was run before; for every worker, in a pool of any size. |
| `WorkerPool.SomeoneCanMove` | experimental/opencl/bench_workers.c:259-274 | There is no deadlock: while a worker is unfinished, one can move. |
| `WorkerPool.EveryScheduleEnds` | experimental/opencl/bench_workers.c:259-274 | No schedule makes more than six moves a job and nine a worker. |
| `WorkerPool.RunHolds` | experimental/opencl/bench_workers.c:259-274 | Mutual exclusion, and each job number taken is accounted for once, in every reachable state. |
| `WorkerPool.StepKeepsExclusive` | experimental/opencl/bench_workers.c:265 | One step keeps mutual exclusion, and what the holder of the lock knows of the counter. |
| `WorkerPool.StepKeepsAccounted` | experimental/opencl/bench_workers.c:265-271 | One step keeps the account of each job. |
| `WorkerPool.StepKeepsOvershoot` | experimental/opencl/bench_workers.c:265-266 | One step keeps the account of the numbers past the last job. |
| `WorkerPool.NoWorkerRunsNothing` | experimental/opencl/bench_workers.c:322-336 | A round in which no thread could be created runs nothing. |
| `WorkerPool.EveryMoveCounts` | experimental/opencl/bench_workers.c:259-274 | Every move brings the pool nearer to its end. |
| `WorkerPool.Benchmark.constructor` | experimental/opencl/bench_workers.c:308-311 | No job run yet. |
| `WorkerPool.Benchmark.Turn` | experimental/opencl/bench_workers.c:263-272 | One step of a worker on the shared fields. |
| `WorkerPool.Benchmark.RunRound` | experimental/opencl/bench_workers.c:321-336 | One round, joined: each job was run once more if any thread was created. |
| `WorkerPool.Benchmark.Compare` | experimental/opencl/bench_workers.c:339-344 | The results against those of the round before. |
| `WorkerPool.Benchmark.Rounds` | experimental/opencl/bench_workers.c:319-353 | The exit code is 0 exactly when every round had all its threads and succeeded with the checksums of the first, though each is only compared with the one before; then every job was run once a round. Otherwise the first bad round gives 4 or 5. |

## Left out

- LineIndent.IndentsAreDepths: for programs in which no `if` meets a stale `else`, since there the header stack is not the path; default options, so no block, brace, class, namespace or switch indent.
- Headers: `try`/`catch`/`finally`, `case`, `switch`, classes, namespaces, templates, and preprocessor-indented blocks are not in the syntax tree; `for` stands for every header that completes nothing. A header's condition is part of its token.
- Lexing inside the stack machines: quotes, comments and digit separators decide which tokens there are, and the tokens are given.
- Preprocessor: multi-line `#define` clones, the shared `g_preprocessorCppExternCBrace` and the indent options of directives; the few fields that ASFormatter copies to the active clone before each line are part of the abstract step.
- ContinuationIndent: template brackets, whose outermost closer acts as a semicolon; class headers and initializers, enums, Objective-C and `operator<<` alignment; the distance to the next program text and the word that a comma or a multiple assignment is aligned to are given.
- LineLaws.TextIsConserved: over the modelled calls; the code that pads operators, adjusts comments, runs in braces or inserts a brace before a comment also edits `formattedLine` in place.
- LineLaws.CommentStaysMarked: nothing comes between marking a comment and appending its opener; a run-in brace formatted there moves the text.
- LineSplitter.LineAssembler.GoForward: counts the blanks passed over; that `goForward` reads the next line when no text follows them is part of reading, not of this model.
- LineSplitter: the multipliers .7 and .3 are exact.
- LineSplitter.LineAssembler.TakeLine: what `nextLine` gives to the beautifier and the enhancer, not the flags of the character loop that it copies.
- LineLaws.SplitPointIsAPoint: for code lengths of at least 50, the least the option allows; WhenItCuts and BestPointIsFound likewise.
- LeadingWhitespace.UnindentUndoesIndent: counts are not negative, as all callers give them.
- LeadingWhitespace: `getIndentedSpaceEquivalent`.
- SwitchLayout.UnindentIsClauseDepth: a switch that opens on the line of a brace right behind a label and goes on below is not in the grammar (InnerSwitchTakesTheUnindent says what happens to it), nor are lines on which the tracking is off.
- SwitchTracker: event tables, SQL sections and the search for the colon of a label.
- Encoding: malformed input, and big-endian hosts; the order of the bytes in the text is either.
- Wildcmp: `tolower` is that of the C locale.
- StreamIterator: `getline` options, files and encodings; the text is given.
- Sink: the bytes come as a sequence; the arithmetic of `size_t` never wraps at these sizes.
- WorkerPool: what a job does and how long it takes; its result is given, and the thread interface is its interleaved steps.
- The rest of ASFormatter (bracket and pointer styles, one-line blocks, comments), option parsing, file walking, the localizer, and everything in OpenJPEG outside the benchmark's sink and pool.
