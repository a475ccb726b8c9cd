# UEFI Forth: a verified model

A model, in Dafny 4.11, of the Forth system that runs as a UEFI application, with proofs about it.
`dafny verify dfyconfig.toml` checks everything.

**The machine.** `Machine` is the inner interpreter `forth_run` as a step relation: the parameter stack with its
cached top, the return stack, threaded code in memory, the dictionary, the word input buffer, pending keys and
console output. One step goes from one label of the C function to the next, so a wait in the middle of
`EARLY-WKEY` or `DELAYUS` and the later re-entry through the saved label are visible. `Memory` is byte-addressed
and holds objects (cells, characters, word headers); a store takes the place of whatever it overlaps. `Words`
has the 64-bit arithmetic. `Context` is the same interpreter as it is written, a class with two arrays for the
stacks, fields that every opcode changes, and a saved label; it is proved equal to the step relation.
`CachedTop` says what the stacks mean to their users, `Arithmetic` what the arithmetic opcodes compute,
`Queries` what the opcodes answer that look at the dictionary, `Storage` what stores and loads mean to each
other, `Yield` that waiting cannot be noticed and `Carry` that more in memory does no harm; `Blind` has what
opcodes do not look at, for both.

**The compilers.** `Builders` and `Compiler` model `forth_if`, `forth_then` and the other C functions that
append code and patch it through the compile stack. `Meaning` gives structured programs a meaning, with the
words they call, execute and wait in. `Watching` runs the machine and counts the open calls along; `Following`
relates the two, and `Semantics` concludes both ways: whatever a program means, its code does, and whatever its
code does, as long as it does not stray, the program means. `Programs` says so for whole words, called in any
later memory that has kept them, `Answers` has meanings in closed form, and `Forever` is about programs without
an end. `ControlWords` and `Defining` prove that the Forth words `IF THEN BEGIN AGAIN UNTIL : ;`, which are
threaded code themselves, do the same work with their addresses on the parameter stack. `Dictionary` and
`WStrings` are the C functions as they are written, with variables, an array and loops; `DictionaryIndex` is
what a history of definitions makes of the dictionary.

**The library.** `Library` lists the threaded code of 37 words of `forth_core.c`, `forth_io.c` and
`forth_interpret.c`, cell by cell; `Stepping` runs it one cell at a time. `Structure` has the same words as the
structured programs that the C source writes, and `LibraryPrograms` joins the two: each word means its program.
`StackWords`, `DictWords`, `IoWords`, `Printing`, `Tokeniser`, `Interpret` and `Numbers` prove what the words
do, through all their nested calls and loops; `Sessions`, `Definitions`, `Structured` and `Vocabulary` put them
together into whole sessions at the prompt. Those proofs run in a memory with nothing above DP and nothing but
characters in the input buffer. `AnyMemory`, `Prompt` and `TypedCalls` carry their theorems to every memory,
whatever programs have stored in the buffer and above DP; `Trimmed` is the machine cut down to its dictionary.

**The start.** Those theorems ask that the library is in memory (`Image`), can be found, and has an input buffer
behind it. `Script` is the list of the 170 declarations of `forth_init_core`, `forth_init_io` and
`forth_init_interpret` in source order; `Bootstrap`, with `Laying`, carries them out with the methods of
`Dictionary`, one after the other, then the words that come later, then `forth_init_task`. `Boot` shows that a
machine at `INTERPRET-LOOP` meets every premise as long as what this wrote is still there, and `Witness` that
there is something to start from. `Spellings` has the names under which the words are then found, and what
typing the constants does.

**Around the machine.** `Fifo` is the single-producer single-consumer queue between the keyboard callback and
`EARLY-WKEY`, as interleaved atomic accesses; `Fifo16` is the same structure at rest. `Scheduler` is the task
ring, `Events` the event-slot ring and the loop that wakes sleeping tasks, `Moves` the four block moves.

Where the source says one thing in a description and does another, the model follows the code: `CR` emits a line
feed and then a carriage return (`forth_io.c:77-79`), although the two are compiled in the other order.

## Model

| member | source | states |
|---|---|---|
| Context.ForthContext.constructor | forth.c:275-318 | a new task has empty stacks with the sentinel in tos, no error, no compile state and starts at the given ip |
| Context.ForthContext.Ppush | forth.c:46-54 | the value is the new top cell; a push on a full stack is undefined |
| Context.ForthContext.Ppop | forth.c:56-66 | returns and removes the top cell, or sets the stack-error flag and returns the bad pattern |
| Context.ForthContext.Rpush | forth.c:68-76 | the same for the return stack |
| Context.ForthContext.Rpop | forth.c:78-88 | the same for the return stack, with its own flag |
| Context.ForthContext.DoStack | forth.c:776-858 | the stack opcodes on the arrays are the stack opcodes of the machine |
| Context.ForthContext.DoArith | forth.c:859-978 | so are the arithmetic and comparison opcodes |
| Context.ForthContext.DoMemory | forth.c:979-1061 | so are the loads, stores, variables and console opcodes |
| Context.ForthContext.DoInterp | forth.c:1062-1112 | so are the opcodes of the outer interpreter |
| Context.ForthContext.DoControl | forth.c:746-794 | so are HALT, BRANCH, ZBRANCH, EXIT, CALL, LIT, DOCONST and EXECUTE |
| Context.ForthContext.DoFind | forth.c:382-395 | FIND copies the name into a buffer and runs the dictionary search on it |
| Context.ForthContext.DoWordNew | forth.c:407-420 | WORD-NEW creates the word that forth_word_new creates |
| Context.ForthContext.Dispatch | forth.c:740-1260 | the whole switch is the machine's opcode function |
| Context.ForthContext.Go | forth.c:730-746 | going from one label to the next is one step of the machine |
| Context.ForthContext.Run | forth.c:719-1262 | running the class refines running the machine, through waits and re-entries |
| CachedTop.ItemCount | forth.c:854-858 | the number of cells that DEPTH reports is the number of items |
| CachedTop.Simulates | forth.c:776-978 | every stack and arithmetic opcode does to the cached stack what it does to a plain sequence of items |
| CachedTop.SimulatesAll | forth.c:776-978 | so does every straight-line program whose operations have their operands and room |
| CachedTop.PzChkPasses | forth.c:782-790 | PZCHK goes on exactly on the empty stack |
| CachedTop.Delays | forth.c:1122-1152 | DELAYUS takes the delay off the stack and waits; once the timer has fired the machine goes on with everything else as it was |
| CachedTop.Emits | forth.c:1032-1036 | EARLY-WEMIT takes a character off the stack and puts it out |
| CachedTop.Keys | forth.c:1037-1049 | EARLY-WKEY waits while there is no key, then pushes the first one |
| CachedTop.Halts | forth.c:741-750 | HALT stops the machine for good, NOOP does nothing |
| CachedTop.EqChkCompares | forth.c:795-809 | =CHK takes two equal items and stops the machine on two different ones |
| CachedTop.BackToEmpty | forth.c:46-66 | a program that pops everything it pushed restores the sentinel, so PZCHK passes |
| CachedTop.Noticed | forth.c:56-66 | the stack-error flag goes up if and only if an opcode pops more cells than there are items |
| CachedTop.PickNoticed | forth.c:838-851 | PICK with a negative number or one above the stack size leaves the bad pattern and raises the flag |
| CachedTop.Unnoticed | forth.c:816-862 | with one item, SWAP and + take the sentinel for an item and no error is raised |
| Words.Bitwise | forth.c:895-909 | AND, OR and XOR act on each bit by itself |
| Arithmetic.SumsUndo | forth.c:859-879 | + and - undo each other modulo 2 to the 64; 1+, 1- and 2* are special cases |
| Arithmetic.Product | forth.c:873-876 | * is the product but for a multiple of 2 to the 64 |
| Arithmetic.Divides | forth.c:880-916 | / and MOD belong together: quotient times divisor plus remainder is the dividend, and the remainder is smaller |
| Arithmetic.Negates | forth.c:910-912 | a number and what NEGATE makes of it add up to zero |
| Arithmetic.Compares | forth.c:947-978 | < and > order two's complement numbers, U< and U> naturals; the answers are TRUE and 0 |
| Arithmetic.ComparesEqual | forth.c:917-946 | = and <> are opposites; 0= and 0<> compare with zero |
| Arithmetic.Inverts | forth.c:907-909 | INVERT turns over each of the 64 bits |
| Arithmetic.ShiftsLeft | forth.c:887-890 | LSHIFT moves every bit up; what leaves the word is lost |
| Arithmetic.ShiftsRight | forth.c:891-894 | RSHIFT moves every bit down |
| Arithmetic.Halves | forth.c:884-886 | 2/ is RSHIFT by one |
| Storage.StoredIsLoaded | forth.c:991-1026 | for each width, a store into the dictionary RAM changes only the bytes it writes, whatever lay there at whichever width, and a load from there gives the value back, cut to the width |
| Storage.RunApart | forth.c:740-1260 | over every run no two objects in memory come to share a byte |
| Carry.Carries | forth.c:719-1262 | whatever a machine reaches without meeting anything undefined, the same machine with further objects in memory reaches too, in a memory that holds the smaller one |
| Yield.GoAhead | forth.c:1037-1049 | a label is either a wait that changes nothing or a step the machine that never waits takes too |
| Yield.Transparent | forth.c:727-729 | whatever the schedule of keys, timer callbacks and re-entries, the state is one that the machine with all keys at hand comes through |
| Yield.SchedulesAgree | forth.c:1037-1049 | two schedules with the same keys that run until a further key is wanted end in the same stacks, memory and output |
| Yield.Eager | forth.c:1143-1152 | conversely, some schedule leads to every state that the machine that never waits reaches |
| Compiler.EmitLays | forth.c:235-268 | the builders write exactly the code with every branch resolved, and leave the compile stack as it was |
| Compiler.TargetsResolved | forth.c:242-268 | every placeholder has been patched, with a cell of the emitted code or its end |
| Semantics.Simulates | forth.c:740-771 | code in memory does what the structured program means, for every nesting, whatever words it calls, executes or waits in |
| Semantics.SimulatesWord | forth.c:740-771 | executing a word, an opcode or threaded code that calls further words, does what the word means |
| Semantics.RunDecides | forth.c:740-771 | conversely, watch the machine run a word: if it comes back, the word means the state it has come back in; if it comes to rest, the word means that; only a run that strays has no meaning, one that calls code outside the lexicon, returns to another address than it was called from, overwrites the code, executes a branch or literal written out by hand, or meets something undefined |
| Semantics.AnswerRuns | forth.c:740-771 | and every answer is the end of such a run, which has not strayed before |
| Answers.OpAnswers | forth.c:776-978 | the meaning of an opcode that touches the data stack alone is its effect |
| Answers.CallAnswers | forth.c:760-765 | in closed form: a word compiled from data-stack words, constants, numbers and further words of this kind means the composition of their effects, and returns |
| Meaning.FuelEnough | forth.c:262-268 | the bound on loop rounds and calls decides whether there is an answer, never which |
| Forever.NeverEnds | forth.c:249-268 | the converse for programs without an end: where the meaning has no answer under any bound, the machine never halts, never meets anything undefined, never waits in vain |
| Semantics.CompiledCodeRuns | forth.c:235-268 | compiler correctness: in any later memory that still holds what the builders wrote, running it reaches the state of the structured semantics |
| Programs.CompiledWordRuns | forth.c:128-162 | compiler correctness for words: open, emit, compile EXIT, close; then the word is found under its name, and in every later memory that has kept it, calling it does what its program means and returns, and whatever the machine does then without straying, the program means |
| Forever.CompiledNeverEnds | forth.c:128-162 | the same for a compiled word, called in any memory that has kept it |
| Structure.SourceSpells | forth.c:340-345 | for each of the 37 threaded words, the macro calls of its C source, as a structured program, come to the cells of the library |
| LibraryPrograms.LibraryMeans | forth.c:340-345 | every threaded word of the library, called from anywhere, does what its C source means as a structured program of opcodes and other library words; and whatever the machine does then without straying, the source means |
| AnyMemory.ControlWord | forth_interpret.c:194-228 | the threaded bodies of IF, THEN, BEGIN, AGAIN and UNTIL do to the dictionary what forth_if, forth_then, forth_begin, forth_again and forth_until do, with the parameter stack as the compile stack |
| Prompt.ThreadedEmits | forth_interpret.c:194-228 | for every program the immediate words compile the cells that the builders emit, patches included |
| AnyMemory.ColonWord | forth_interpret.c:147-150 | : reads the next word of the keys, whatever delimiters stand around it, opens the definition that forth_colon opens, and starts compiling |
| AnyMemory.SemicolonWord | forth_interpret.c:174-183 | ; compiles EXIT and finishes the word as forth_semicolon does |
| Dictionary.ForthDictionary.constructor | forth.c:340-345 | an empty dictionary with an empty compile stack |
| Dictionary.ForthDictionary.Cpush | forth.c:99-107 | a cell goes onto the compile stack; on a full one the pointer moves and nothing is stored |
| Dictionary.ForthDictionary.Cpop | forth.c:109-119 | the top cell comes off, or the bad pattern if there is none |
| Dictionary.ForthDictionary.ColonCode | forth.c:121-126 | the header goes to DP with LATEST as its link, and its address onto the compile stack |
| Dictionary.ForthDictionary.Colon | forth.c:128-131 | the same with opcode CALL is what : opens |
| Dictionary.ForthDictionary.Desc | forth.c:133-154 | a description is stored at DP, and the body moves behind it if it was there |
| Dictionary.ForthDictionary.Semicolon | forth.c:156-162 | the open word gets its length and becomes LATEST |
| Dictionary.ForthDictionary.Append | forth.c:164-168 | a cell is appended and DP moves on by eight |
| Dictionary.ForthDictionary.FindComma | forth.c:203-213 | the xt that the search finds is appended, or NULL |
| Dictionary.ForthDictionary.Literal | forth.c:170-174 | LIT and the number are appended |
| Dictionary.ForthDictionary.If | forth.c:235-240 | ZBRANCH and a placeholder are appended, the placeholder's address is pushed |
| Dictionary.ForthDictionary.Then | forth.c:242-247 | the placeholder is patched with DP |
| Dictionary.ForthDictionary.Begin | forth.c:249-252 | DP is pushed |
| Dictionary.ForthDictionary.Again | forth.c:254-260 | BRANCH and the address of BEGIN are appended |
| Dictionary.ForthDictionary.Until | forth.c:262-268 | ZBRANCH and the address of BEGIN are appended |
| Dictionary.ForthDictionary.Constant | forth.c:229-233 | a DOCONST word with its value in its body |
| Dictionary.ForthDictionary.Immediate | forth.c:270-273 | the newest word is marked |
| WStrings.Wstrlen | wstring.c:3-11 | the number of characters before the first NUL |
| WStrings.Wstrsame | wstring.c:17-34 | true if and only if the two strings are equal up to their NULs |
| WStrings.FindWord | forth.c:188-201 | the do-while loop is the search down the prev links |
| Queries.PrevSearches | forth.c:516-520 | XT>PREV takes one step of the search |
| Queries.NewWord | forth.c:407-420 | XT>BODY, XT>PREV, BLEN@ and IMMEDIATE? on a word that WORD-NEW has just made |
| Queries.LengthKept | forth.c:544-557 | BLEN@ reads what BLEN! has written |
| Queries.LongNames | forth.c:382-420 | FIND and WORD-NEW answer zero for names of more than 127 characters |
| Queries.ShortTexts | forth.c:439-500 | NUMBER? and >NUMBER answer zero for texts of fewer than two characters |
| Queries.Status | forth.c:987-990 | STA@ shows the error flags and the compile state, each as its own bit |
| DictionaryIndex.KeepsAll | forth.c:23-44 | every run of one-at-a-time definitions keeps the dictionary a linked index of its closed words |
| DictionaryIndex.FindsNewest | forth.c:188-201 | after any such run the search returns the newest closed word of the name or NULL; an open word is not seen |
| DictionaryIndex.Disjoint | forth.c:23-44 | no two words share a byte, and prev links go strictly down, so every search ends |
| DictionaryIndex.ClosedIntactAll | forth.c:133-168 | no run of actions changes what closed words hold, but for the mark IMMEDIATE() sets on the newest |
| DictionaryIndex.InnerLost | forth.c:29 | two definitions inside each other, with any cells, patches, space and descriptions before, between and after: the dictionary stays an index, but of the outer word alone; no search finds the inner one |
| StackWords.Rot | forth_core.c:127-131 | ( a b c -- b c a ), everything below and the return stack untouched |
| StackWords.MinusRot | forth_core.c:132-136 | ( a b c -- c a b ) |
| StackWords.TwoDrop | forth_core.c:137-141 | the two top items go |
| StackWords.TwoDup | forth_core.c:142-146 | ( a b -- a b a b ) |
| StackWords.TwoSwap | forth_core.c:147-151 | ( a b c d -- c d a b ), through two calls of -ROT |
| StackWords.TwoOver | forth_core.c:152-156 | ( a b c d -- a b c d a b ), through nested calls |
| StackWords.TwoRot | forth_core.c:157-161 | ( a b c d e f -- c d e f a b ), through nested calls |
| StackWords.TwoMinusRot | forth_core.c:162-166 | ( a b c d e f -- e f a b c d ), through nested calls |
| StackWords.RotationsCancel | forth_core.c:157-166 | 2ROT and 2-ROT undo each other, in either order, on every deep enough stack |
| DictWords.Here | forth_core.c:268-271 | HERE pushes DP |
| DictWords.Allot | forth_core.c:292-295 | ALLOT moves DP by its argument, modulo 2 to the 64 |
| AnyMemory.XComma | forth_core.c:309-312 | X, appends a cell just as forth_comma does |
| IoWords.WEmit | forth_io.c:20-23 | WEMIT puts out one character through the user vector |
| IoWords.WKey | forth_io.c:24-27 | WKEY takes the first pending key |
| IoWords.Cr | forth_io.c:75-80 | CR puts out a line feed and then a carriage return |
| Printing.WType | forth_io.c:28-39 | WTYPE prints exactly the string and drops its two arguments |
| Printing.NHex | forth_io.c:46-57 | NHEX. prints the c lowest hex digits, most significant first |
| Printing.XHex | forth_io.c:58-62 | XHEX. prints sixteen digits |
| Printing.DotS | forth_io.c:81-95 | .S prints the depth and every item from bottom to top, and leaves the stack alone |
| Numbers.WIsXDigit | forth.c:422-437 | the comparisons of wisxdigit accept exactly the hex digits |
| Numbers.HexDigits | forth.c:422-475 | NUMBER? takes exactly the sixteen characters that NHEX. prints, and >NUMBER gives each its value |
| Numbers.IsNumberLoop | forth.c:439-465 | NUMBER? accepts exactly `$` with one or more upper-case hex digits |
| Numbers.ToNumberLoop | forth.c:477-500 | >NUMBER puts the digits together; zero for anything that is not a number |
| Numbers.PutNHex | debug.c:18-25 | debug_putnhex puts out the digits that NHEX. prints |
| Numbers.HexRoundTrip | forth_io.c:40-57 | `$` and the c digits printed for n are accepted by NUMBER? and read by >NUMBER as n modulo 16 to the c |
| Numbers.XHexRoundTrip | forth_io.c:58-62 | reading back what XHEX. prints gives the number, for all 64-bit numbers |
| Tokeniser.WibPushAny | forth_interpret.c:44-50 | WIB-PUSH stores the character in slot WIN modulo 127 and counts modulo 127 |
| Tokeniser.FitsBuffer | forth.c:327-328 | the slot lies in the reserved bytes if and only if it is one of the first 64 |
| AnyMemory.LongToken | forth.c:327-328 | _WIB-WORD on a token of any length: everything stays below DP if and only if the token has at most 64 characters; a longer one puts characters into free dictionary space |
| Tokeniser.Delim | forth_interpret.c:51-58 | DELIM? is true of blank, carriage return and line feed and nothing else |
| AnyMemory.WibWord | forth_interpret.c:72-79 | WIB-WORD skips delimiters and reads the word behind them |
| Prompt.ReadsAll | forth_interpret.c:59-79 | for every key stream, repeated WIB-WORD yields its maximal runs of non-delimiters in order, one delimiter consumed with each |
| Tokeniser.StreamKeyed | forth_interpret.c:59-79 | the words that WIB-WORD finds are the words of the key stream, whatever delimiters stand between them |
| AnyMemory.ExecutesWord | forth_interpret.c:106-119 | the next word of the keys, whatever delimiters stand around it, is executed if it is known and either immediate or the machine does not compile |
| AnyMemory.CompilesWord | forth_interpret.c:114-117 | a known word that is not immediate is appended while compiling |
| AnyMemory.PushesNumber | forth_interpret.c:120-129 | a number is pushed while interpreting |
| AnyMemory.CompilesNumber | forth_interpret.c:121-128 | a number is compiled as LIT and its value |
| AnyMemory.ReportsUnknown | forth_interpret.c:130-134 | any other token is echoed and reported, and the interpreter is reset |
| Interpret.InterpretFix | forth_interpret.c:81-96 | with the stack-error flag set: empty stack, flag clear, compile state off, WIN zero, message printed, return stack as at entry; otherwise nothing |
| Prompt.TypesAll | forth_interpret.c:106-141 | typing a list of words at any prompt, with any blanks and line ends between them and whatever has been stored above DP or in the buffer, applies their effects in order and leaves the dictionary alone |
| Prompt.Defines | forth_interpret.c:147-183 | typing `: N words ;` adds exactly one word, N, with the code of the words, in front of a dictionary that stays as it was |
| Prompt.DefineThenCall | forth_interpret.c:106-183 | typing `: N words ;` and N leaves the data stack that typing the words leaves, and adds exactly one word to the dictionary; any blanks and line ends may stand between the words |
| Definitions.DefinedActs | forth_interpret.c:106-183 | a word defined from words that act on the data stack is such a word itself, and may be used in sessions and further definitions |
| Vocabulary.OpcodeActs | forth.c:776-978 | the opcodes that touch only the data stack may be typed in a session, with their effects |
| Vocabulary.ConstantActs | forth.c:229-233 | so may every word made by CONSTANT, `$0` to `$F` among them |
| Spellings.DollarConstants | forth_core.c:52-99 | a constant whose name reads like a number has that number as its value: the dictionary and >NUMBER agree on `$0` to `$F` |
| Spellings.OtherConstants | forth_core.c:31-36 | TRUE and FALSE are what comparisons answer; FORTH-STA-PSER is the stack-error bit of STA@ |
| Spellings.TypesConstant | forth_core.c:52-99 | typing the name of a constant at any prompt after forth_init pushes its value, the number that the name spells |
| Vocabulary.StillActs | forth_interpret.c:106-183 | what may be typed now may be typed when the dictionary has grown |
| Vocabulary.RotActs | forth_core.c:127-131 | so may a threaded word |
| Prompt.TypedDefinition | forth_interpret.c:106-228 | typing `: N`, a body of words, numbers and nested IF THEN BEGIN UNTIL AGAIN, and `;` leaves the dictionary that the C builders leave for the same program, cell by cell, but for the input buffer |
| Structured.TypedWordRuns | forth_interpret.c:106-228 | and the word so typed does what its body means as a structured program, in every memory that keeps it, and nothing else as long as it does not stray |
| TypedCalls.TypedThenCalled | forth_interpret.c:106-228 | typing `: N`, a structured body, `;` and N leads to the call of N, and from there to the state that the structured semantics gives, and to no other as long as the run does not stray |
| TypedCalls.CallReturns | forth_interpret.c:115-141 | once the word has returned with the stacks and the library in order, the prompt is reached again with what it left |
| Script.NamesApart | forth.c:341-343 | no two of the 170 declarations of the three functions give the same name |
| Script.UsesEarlier | forth.c:203-213 | the code of each library word names only words declared before it, so COMPILE finds them all |
| Script.DeclaredOrder | forth.c:341-343 | each library word is declared once, at its place in the source |
| Bootstrap.Booter.constructor | forth.c:340 | an empty dictionary above the string constants, and no declaration carried out |
| Bootstrap.Booter.Lay | forth.h:48-59 | running the macro calls of a structured program lays exactly the next cells of the word, with every branch resolved |
| Bootstrap.Booter.Threaded | forth.h:48-59 | DFWH, DESC, the macro calls of a word, ENDW and perhaps IMMEDIATE: its whole code is in memory and it is found under its name, as are all words before it |
| Bootstrap.Booter.Primitive | forth.h:48-51 | DFWL, DESC and ENDW do the same for a word of one opcode |
| Bootstrap.Booter.Konstant | forth.c:229-233 | CONSTANT, DESC and ENDW do the same for a word that pushes its value |
| Bootstrap.Booter.Skip | forth.c:341-343 | a word outside the library, whatever its opcode and cells, leaves all library words found and in place |
| Bootstrap.Booter.InitCore | forth_core.c:4-366 | forth_init_core: all its declarations in order; the library words among them are in memory and found |
| Bootstrap.Booter.InitIo | forth_io.c:6-163 | forth_init_io likewise |
| Bootstrap.Booter.InitInterpret | forth_interpret.c:8-285 | forth_init_interpret likewise; with it the library is complete |
| Bootstrap.Booter.InitLater | forth.c:344-345 | the words of forth_init_gop and forth_init_test hide no library word |
| Bootstrap.Booter.InitTask | forth.c:320-329 | the root task has empty stacks and the default console words; its input buffer is the last 128 bytes of the dictionary |
| Bootstrap.Init | forth.c:331-348 | forth_init, from the C string constants on: the whole library is in memory, all its words are found, buffer and console words are set up |
| Boot.StillBooted | forth.c:331-348 | cut down to its dictionary, such a machine is as forth_init left it |
| Boot.GetsToPrompt | forth_interpret.c:136-141 | a task that reaches INTERPRET-LOOP while memory still holds what forth_init wrote, whatever the self-test and others have stored elsewhere, meets all premises of the theorems about any prompt, if its dictionary has room |
| Boot.WordLegal | forth_interpret.c:106-119 | and every library word that acts on the data stack may be typed under its own name |
| Boot.OpcodeLegal | forth.c:776-978 | so may every stack, arithmetic and comparison opcode |
| Spellings.FoundAs | forth.c:341-343 | after forth_init the search for the name of a declaration finds the word that it has made, with its opcode and, for a constant, its value |
| Spellings.ImmediateNames | forth_interpret.c:21 | the immediate words of the library are exactly `[`, `;`, BEGIN, AGAIN, UNTIL, IF and THEN |
| Witness.ConstantsFit | forth_interpret.c:5-6 | there is static data for forth_init to start from |
| Witness.Launch | forth.c:331-348 | so there is a machine that forth_init has made |
| Fifo.Safety | fifo.c:116-157 | under every interleaving: popped values are a prefix of pushed ones, at most size - 1 are held, a push fails only at size - 1 and a pop only at none, counts are exact, the slot read is never the slot written |
| Fifo.EveryPush | fifo.c:116-129 | under every interleaving, a push that has come to its end has added its value, once and as the last, and moved tail on by one, or has found the queue full and changed nothing |
| Fifo.EveryPop | fifo.c:131-142 | and a pop has taken the oldest item and moved head on by one, or has found the queue empty and changed nothing |
| Fifo.NoWaiting | fifo.c:116-142 | a push or pop is over after three accesses of its own, whatever the other side does |
| Fifo.CountedByProducer | fifo.c:144-157 | when the producer counts, head cannot have come round to the same index, so it gives one answer, the occupancy at the last load of tail |
| Fifo.CountedByConsumer | fifo.c:144-157 | the same when the consumer counts |
| Fifo16.Fifo16.constructor | fifo.c:96-114 | a new queue is empty |
| Fifo16.Fifo16.Push | fifo.c:116-129 | appends unless size - 1 items are held, and says whether it did |
| Fifo16.Fifo16.Pop | fifo.c:131-142 | takes the oldest item unless there is none |
| Fifo16.Fifo16.NumUsed | fifo.c:144-157 | the number of items |
| Fifo16.Fifo16.IsFull | fifo.c:164-167 | always false |
| Fifo16.Fifo16.IsEmpty | fifo.c:169-172 | true if and only if there is no item |
| Fifo16.RefusesUnfull | fifo.c:116-167 | a queue that refuses a push is still not reported full |
| Scheduler.Ring.constructor | forth.c:320-326 | the root task alone in its ring |
| Scheduler.Ring.TaskNew | forth.c:311-316 | a new task goes behind its parent and is counted |
| Scheduler.Ring.RunAll | forth.c:1264-1277 | every task runs exactly once per pass, in ring order, those spawned meanwhile included; the walk ends, and ends at the root |
| Events.EventRing.Add | main.c:15-39 | the new slot goes behind the head; the ring stays one cycle of the counted slots |
| Events.EventRing.Del | main.c:41-62 | the slot is unlinked, the head moved if it was the head; the ring stays one cycle |
| Events.EventRing.Find | main.c:64-76 | a slot with the event, or NULL if there is none |
| Events.EventLoop.constructor | main.c:122-127 | the ring with the keyboard's slot agrees with no task asleep |
| Events.EventLoop.Spawn | forth.c:311-316 | a new task is awake and has no slot; the slots still agree with the sleeping tasks |
| Events.EventLoop.DelayUs | forth.c:1122-1148 | a task that goes to sleep gets exactly one slot |
| Events.EventLoop.Rerun | forth.c:1143-1152 | a sleeping task goes on if and only if it has been woken, and its flag is cleared |
| Events.EventLoop.Fire | main.c:138-168 | the slot whose event fired is found; a timer wakes the task that armed it and no other, and its slot goes |
| Events.EventLoop.WakeUp | main.c:100-109 | the callback keeps the slots in agreement with the sleeping tasks |
| Moves.Move | forth.c:559-653 | for each of the four widths the destination gets the old source bytes and nothing else changes, whatever the overlap |

## Left out

- Stack overflow: `forth_ppush` and `forth_rpush` move the stack pointer out of the stack (`forth.c:48-52`, `forth.c:70-74`), and a later pop reads there; such states are `Fault` in the model and nothing is said about them.
- Division by zero, shifts by 64 or more, PICK beyond the stack, a hex literal of more than sixteen digits, and a load at another width or address than the object that was stored there: undefined in C or type punning, `Fault` in the model. Stores may overlap anything.
- Messages of the C code (missing word, compile stack overflow and underflow, context dumps, the `HALT` and check failure reports) and the `DUMP` flag: console output of error paths, except the two messages that the interpreter itself prints and the one about a full keyboard queue.
- `UP@`, `TASK-NEW`, `EARLY-ECHO-ON`, `EARLY-ECHO-OFF`, `EARLY-CLR`, `ALLOCATE`, `FREE`, the `XT>WNAME` family and the fill loops: `Other` opcodes of the machine; task creation is modelled in `Scheduler` and `Events` instead.
- The move opcodes inside the machine: `Moves` has them on a byte array, because the memory of the machine holds objects and a move may cut through them; wrap-around of addresses is not modelled.
- What the graphics words (`forth_gop.c`), the self-test programs, the comment words and `HELP` do, and `debug.c` apart from its digit loop.
- The echo of keys in the keyboard callback (`main.c:92-94`); the output in `Yield` is that of the machine.
- UEFI services: allocation, timers, console output and event waiting are steps that succeed; the character that arrives, the event that fires and the handle a new event gets are inputs.
- Context.ForthContext.Run: runs for a given number of labels, because `forth_run` need not return; the bound is the method's argument and any number of calls may follow each other.
- Semantics.RunDecides: says nothing more about a run that strays: one that executes `BRANCH`, `ZBRANCH` or `LIT` written out by hand, overwrites the code of a program, leaves with another return address than the one it was called with, calls code outside the lexicon, or fills up the return stack; programs of the lexicon end with EXIT or a loop without an end, as the words of the library and all compiled words do. A program that waits rests where it waits, and `Yield` says what happens after.
- AnyMemory.LongToken: after a token of more than 64 characters the dictionary behind the buffer is overwritten (`forth.c:327-328` reserves 128 bytes for 2-byte characters); what the interpreter does with such a token is not modelled.
- Prompt.TypesAll: words typed in a session touch the data stack only; keys arrive before they are read, which `Yield.SchedulesAgree` shows to make no difference.
- Prompt.DefineThenCall: the words inside the definition are not immediate ones; `Prompt.TypedDefinition` has definitions with control structures, any other immediate word is left out.
- Bootstrap.Booter.Skip: the cells and the opcode of a word outside the library are arbitrary, so nothing is proved about what such words do; the same goes for graphics.
- Boot.GetsToPrompt: the self-test runs between `forth_init` and `INTERPRET-LOOP` (`forth_core_test.c`, `forth_interpret_test.c`) and is not modelled; that it leaves what `forth_init` wrote, and DP, LATEST, the compile state and the vectors, as they were is the premise `Outlives`, and that it returns with the stacks in order is a premise too.
- Bootstrap.Init: the RAM that `forth_init` allocates is taken to be large enough; `Boot.GetsToPrompt` asks how much room a session needs.
- Context.ForthContext.constructor: the user vectors, the buffer and WIN are its argument, because `Bootstrap.Booter.InitTask` sets them; the copy of a parent's fields is left out.
- Context.ForthContext.Ppush: a push on a full stack is undefined, as said above.
- Context.ForthContext.Rpush: likewise.
- Context.ForthContext.DoStack: `DBGON` and `DBGOFF` only turn dumps on and off and have no meaning here.
- Context.ForthContext.DoMemory: `UP@` has no meaning here, nor has a load of another width, or at another address, than the object stored there, nor a store below the dictionary RAM other than into the variables.
- Context.ForthContext.DoInterp: the `XT>WNAME` family and the echo opcodes have no meaning here.
- Context.ForthContext.Dispatch: move, fill, allocation, task and graphics opcodes have no meaning here.
- Dictionary.ForthDictionary.Cpop: the underflow message is left out.
- Dictionary.ForthDictionary.FindComma: the message about a missing word is left out.
- IoWords.WEmit: with the vector that `forth_task_new` sets; a task that has put another word there is left out.
- IoWords.WKey: likewise.
- Events.EventRing.Add: the NULL answer to a failed allocation is left out.
- Events.EventLoop.DelayUs: so are failures to make the event or set its timer.
- Events.EventLoop.WakeUp: and the early return on an error status.
- Several tasks sharing the machine: `Yield` has one task; `Scheduler` and `Events` have many but abstract from what they compute.
- Scheduler.Ring.Run: a task's effect on the ring is given in advance as a finite script of the tasks it spawns in this pass.
- The 8-, 32- and 64-bit copies of the queue, which are the same text, `fifo16_reset` while the other side runs, and weak memory effects: the code uses sequentially consistent atomics.
