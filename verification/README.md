# Trident, verified

Trident is a compiler for the language B. A file goes through four passes: the lexer
(`src/lexer.c`), a precedence-climbing parser (`src/expr.c`, `src/parser.c`), the lowering of
syntax trees to a three-address IR (`src/ir.c`), and the code generator for x86-64
(`src/amd64.c`). This project models all four and proves that they are right, each against a
semantics or a specification that does not mention it, and joins the proofs into one statement
about the compiler: `Compiler.CompilerCorrect`, and from the text of the file on
`Pipeline.TextToProcessor`.

## How it is built

**Three semantics.** `Source` is an interpreter for syntax trees: lexical scoping by declaration,
64-bit wrapping arithmetic, signed comparison, truncated division, memory with uninitialised
cells, `goto` into and out of blocks, recursion, and a trace of the calls that leave the program.
It runs on `fuel` (depth of calls, rounds of loops, jumps). `Ir` is a small-step machine over
numbered temps with a whole stack of activations. `X86` is the part of a processor that the
generated code uses: registers, flags, a stack of words, `idiv` exceptions, a `call` that traps
when rsp is not a multiple of 16, and outside functions that scribble over everything the ABI
lets them scribble over. All three share one set of words, one memory of addressed cells and one
trace; where storage lives is a parameter (`Ir.Layout`), so the lowering is proved for any
placement of cells and the back end supplies the one it realises (`Codegen.LayoutOf`).

**Lowering** (`Lowering`, `CodeShape`, `CodeLabels`, `Placement`, `ExprSimulation`,
`StmtSimulation`, `Preservation`, `FunctionSimulation`, `ControlFlow`, `DefiniteAssignment`,
`Shelter`, `SetBeforeUse`, `TempSafety`, `Numbering`, `GlobalArrays`, `Acceptance`). The main
theorem says that a lowered program answers, faults or goes on exactly as its source does, `goto`
included, and `EndsComeFromSource` gives the converse; `LowersExactly` says which programs are
lowered at all. Jumps are handled by entering the body again at a label; jumping over an `auto` is allowed, and using
the variable afterwards is the fault `Unset` on both sides, and `OnlySkippedAutos` proves that this
is the only way a temp is ever used before it is set.

**Back end** (`Codegen`, `Arithmetic`, `CodegenOps`, `Listings`, `Frames`, `StepSimulation`,
`JumpSimulation`, `CallSimulation`, `EnterSimulation`, `BackEnd`, `FrameLayout`,
`StackDiscipline`, `Starting`, `Abi`). The invariant `Frames.Match` describes the whole stack of
activations in the processor's memory: temps, cells, saved rbp, return addresses, and which addresses the program may
name at each depth. Every IR step is one or more processor steps that keep it.

**Front end** (`Expressions`, `Printing`, `Statements`, `RoundTrip`, `Grouping`, `Forms`, `Lexing`,
`Spacing`, `Strings`, `Literals`, `Programs`). The expression parser is proved exact for any table of precedences and any choice of associativities:
what it returns is the one tree that stands at that place in the token list. Printers that use as
few parentheses as possible are its inverse; the same is done for statements, whole files, token
lists and string literals. Texts may be laid out in any way: `Pipeline.LaidOutProgram` gives the
functions and the globals that a file stands for, whatever blanks, line ends and comments stand
between its tokens.

**What the definitions mean.** Some definitions are shared by the two sides of a proof: the walk
through the scopes, the operator of each token kind, the levels of the operators, the characters of
the lexer, the program of a file. Each is fixed by theorems of its own that do not use it: which
declaration a name denotes (`Naming`), what each operator answers, as a number or bit by bit, and
which instruction it becomes (`Operators`, `Bits`), how operators group by kind (`Grouping`), which
characters end or separate tokens and what literals mean (`Spacing`, `Literals`), where arguments
travel (`Abi`), which globals own which words (`Programs`), and the rules of the language, stated by
the values of the parts alone (`Rules`, `CallRules`, `StatementRules`).

**The passes in their own form.** The C code updates counters, cursors and lists in place. The
classes `IrGenerator.IrGen`, `AsmWriter.Writer`, `Parsers.Parser`, `Lexers.Lexer` and the methods
of `Strings` follow it loop by loop, and each method is proved to compute the function that the
theorems are about; `Pipeline.Compile` runs them one after another. Between the parser and the
lowering stand the syntax tree with its scopes and the symbol tables (`Nodes`, `SymbolTables`,
`ScopeChains`): the parser opens a scope for every body and writes its table and its parent, the
lowering walks from scope to parent and writes temps into the tables, and both agree with the
nesting of tables that the semantics has.

## Where the code and the language differ

- Assignment groups to the left and every other binary operator to the right (`src/expr.c:32-37`,
  `184-188`), the opposite of section 4 of the Users' Reference to B. The model follows the code;
  `RoundTrip.SameLevelGroups` says exactly when an operator groups to the left.
- Any token is accepted as an atom, a missing closing token is reported and skipped over without
  consuming anything, and commas between arguments are optional. The model does the same; the
  number of messages is part of what the parser returns.
- A comment's opening star can also close it, so `/*/` is a whole comment.
- A shift takes its count modulo 64, as the processor does.

## Model

| member | source | states |
|---|---|---|
| Pipeline.TextToProcessor | src/main.c:68-79 | If a text compiles to the listing on the board, the processor started on it behaves as the source semantics of the program the text spells: same answer, same initialised memory, same calls, divergence for as long as the source diverges, and where a quotient does not exist the exception of an `idiv` after the same calls |
| Pipeline.Compile | src/main.c:68-79 | The four passes in their own form, one after another, compute exactly that listing, or there is none |
| Starting.CanStart | src/amd64.c:189-247 | Every lowered program whose globals and first frame fit into memory can be started: there is a processor that meets what the theorems ask, with its globals apart |
| Pipeline.PrintedIsCompiled | src/parser.c:312-334 | Lexing and parsing the printed text of a file gives back the very program that was printed, indexing included |
| Pipeline.PrintedTree | src/parser.c:84-310 | The tree and the scopes made of a printed file hold that file, number every parameter, and hang every body below the scope it stands in |
| Compiler.CompilerCorrect | src/amd64.c:171-231 | Lowering followed by code generation preserves answers, memory, traces, divergence and division faults (an `idiv` without a quotient, reached with the source's calls behind it), for every program with distinct names and labels, every entry function, argument list and amount of fuel |
| StackDiscipline.StopsComeFromSource | src/amd64.c:171-231 | The converse: when the processor stops or traps the source has an answer or a fault; if it has an answer, that is what the processor stopped with; if it lacks a quotient, the trap is that of an `idiv` after the same calls |
| FunctionSimulation.LoweringPreservesMeaning | src/ir.c:221-545 | For any layout of storage, the IR run gives the source's value, memory and trace, or its fault after the same calls, or runs at least as long with the same calls; blocks, shadowing, loops, chains, `goto`, recursion and addresses included |
| ControlFlow.EndsComeFromSource | src/ir.c:221-545 | Wherever a lowered run ends, the source ends the same way, within as many rounds as the run had steps |
| ExprSimulation.ExprSim | src/ir.c:270-378 | Code of an expression leaves its value in the result temp and its effects in memory and trace, and changes no temp outside the range it was given |
| ExprSimulation.LvalueSim | src/ir.c:221-246 | Code of an lvalue leaves the address the source computes, or the use of a variable without storage still to come |
| ExprSimulation.ArgsSim | src/ir.c:363-374 | Arguments are evaluated left to right and every value survives the evaluation of the later ones |
| ExprSimulation.PairSim | src/ir.c:355-360 | The left operand's value survives the right operand's code |
| ExprSimulation.InvokeSim | src/ir.c:363-374 | The `Call` instruction does what calling the function means, inside and outside the program, with the same errors of arity and room |
| Preservation.StmtSim | src/ir.c:497-510 | Code of a statement, entered at its start or at a label inside it, does what the statement does |
| Preservation.BlockSim | src/ir.c:423-437 | The same for a compound statement with its own table of names |
| Preservation.ChainSim | src/ir.c:439-469 | The same for `if`, `else if` and `else`: one block runs and control meets at the end label |
| Preservation.WhileSim | src/ir.c:477-495 | The same for loops, any number of rounds, and for jumps into the middle of the body |
| Preservation.AutoSim | src/ir.c:380-386 | An `auto` gives its declaration the cell that its number in the text owns |
| FunctionSimulation.PrologueSim | src/ir.c:526-530 | The prologue stores every argument in its own cell and leaves the cell's address in the parameter's temp |
| FunctionSimulation.EnterSim | src/ir.c:512-545 | Entering a function at its first instruction does what calling it means, by induction on fuel through recursive calls |
| CodeLabels.BlockKept | src/ir.c:388-410 | Label numbers are given once, and every target of a block's code is defined in it or is a label of the function |
| ControlFlow.FunctionSealed | src/ir.c:388-495 | In a lowered function no label is defined twice, every jump and branch target is defined, forward `goto`s included, and the code ends in a return |
| ControlFlow.RunsStayInside | src/ir.c:534-537 | No run of a lowered program, of any length, leaves a function except by `return` or jumps to a missing label |
| CodeShape.BlockAllocs | src/ir.c:380-386 | A block has one `alloc` for each `auto` in it, in text order, with increasing temps |
| Placement.LookupOK | src/ir.c:171-180 | Where the lowering finds a local name, lexical scoping finds one too, and the temp is that of the innermost enclosing declaration textually before the use |
| ExprSimulation.VarSim | src/ir.c:226-239 | A variable is found in the same cell, global word or error on both sides |
| FunctionSimulation.CellsOfFunction | src/ir.c:526-530 | A function has exactly one cell for each parameter and each `auto` |
| TempSafety.OnlySkippedAutos | src/ir.c:270-410 | In every lowered program, `goto` included, and after any number of steps: the only temp that can be used before it is set is the temp of an `auto` of the function, used as an address; expressions never read what they did not compute |
| TempSafety.NoRunReadsUnset | src/ir.c:270-378 | While a function without `goto` runs, no temp is read before it is written, whatever the rest of the program does |
| TempSafety.FunctionHeld | src/ir.c:439-530 | In the code of a function without `goto`, every temp that is used is set on every way that leads there |
| SetBeforeUse.ExprFed | src/ir.c:270-378 | Every temp in the code of an expression is set earlier in the same code, except the addresses of variables in scope |
| Shelter.StepSteady | src/ir.c:439-495 | In any code, a temp set at one place stays set wherever control can only come by way of that place, through calls, returns and jumps |
| DefiniteAssignment.AllFine | src/ir.c:423-437 | Every variable in scope has been declared by the time it is used, through loops, chains and calls |
| Numbering.ExprTidy | src/ir.c:123-169 | The instructions of an expression set the temps c+1, ..., d in text order, each once, and read none above d |
| Numbering.BlockTidy | src/ir.c:423-437 | The same for blocks, with every variable in scope below the counter |
| FrameLayout.FunctionTemps | src/amd64.c:172-183 | The back end's highest temp is the lowering's final counter, and every temp set or read is in 1..max |
| FrameLayout.WordsApart | src/amd64.c:185-188 | The frame is a multiple of 16 and every temp and cell has a word of it to itself |
| GlobalArrays.IndexReads | src/expr.c:136-158 | Reading `g[e]` answers the word at base + 8e, after the effects of e |
| GlobalArrays.IndexWrites | src/expr.c:136-158 | `g[e] = r` evaluates r first, changes index e of g and no other word of any global |
| GlobalArrays.AssembledSeparate | src/amd64.c:238-247 | Where the globals stand one after another with the sizes of their `resq` lines, no two of their words share an address |
| Arithmetic.ImulIsMul | src/amd64.c:104-109 | The signed multiplication of the processor is B's wrapping multiplication |
| Arithmetic.CompareDecides | src/amd64.c:20-30 | The flags of `cmp` decide the six comparisons of signed words |
| Arithmetic.DivideFits | src/amd64.c:111-117 | `idiv` faults exactly where B's quotient does not exist |
| CodegenOps.CoreOk | src/amd64.c:87-138 | Every operator's instructions leave B's result in the result register, or fault exactly where it does not exist |
| Listings.FindLocal | src/amd64.c:206-218 | A jump in the listing reaches the first instruction of the label of the same function |
| Listings.FindGlobal | src/amd64.c:189-190 | A call reaches the first function of that name, and leaves the program when there is none |
| StepSimulation.SetFits | src/amd64.c:16-18 | Storing to a temp's slot changes that temp alone: no cell, no saved register, no other activation |
| StepSimulation.StoreFits | src/amd64.c:62-66 | Storing through an address of the program changes that word alone and no activation's temps |
| StepSimulation.SimAlloc | src/amd64.c:46-49 | The k-th `alloc` in the text yields the k-th word below the temps, on every execution |
| StepSimulation.SimLoad | src/amd64.c:56-60 | A load reads what the IR machine reads |
| StepSimulation.SimBin | src/amd64.c:89-136 | The expansion of each binary operation simulates it |
| StepSimulation.TrapBin | src/amd64.c:111-117 | Where the IR machine faults for want of a quotient, the processor comes to the `idiv` of the expansion with the same calls behind it, and that `idiv` has no quotient |
| JumpSimulation.SimBranch | src/amd64.c:212-217 | A branch goes to the label the condition selects |
| JumpSimulation.Cleanup | src/amd64.c:165-168 | After a call rsp is back at the end of the caller's frame and the answer is in the destination temp |
| JumpSimulation.LeaveRet | src/amd64.c:219-226 | `leave; ret` restores the caller's rbp and returns to where the caller waits |
| JumpSimulation.SimReturn | src/amd64.c:219-226 | A return simulates the IR return into any caller |
| JumpSimulation.SimHalt | src/amd64.c:219-226 | The last return stops the processor with the IR machine's value, memory and trace |
| CallSimulation.PushesDo | src/amd64.c:154-157 | Stack arguments end up in order above rsp and nothing above the old rsp changes |
| CallSimulation.BeforeDo | src/amd64.c:145-163 | Before a call, all arguments are where the ABI puts them and rsp has moved by an even number of words |
| CallSimulation.ReachCall | src/amd64.c:145-163 | From a matching boundary, the processor reaches the `call` with the arguments in place and rsp a multiple of 16, for any number of arguments and any frame |
| StackDiscipline.CallsAligned | src/amd64.c:145-152 | At every `call` that the processor executes, from the first instruction on, rsp is a multiple of 16, as long as the source has no fault other than a missing quotient |
| CallSimulation.ArgsSeen | src/amd64.c:9-10 | What an outside function finds in registers and on the stack is the argument list |
| CallSimulation.SimOutside | src/amd64.c:145-168 | An outside call makes the IR machine's event and keeps everything the caller owns |
| EnterSimulation.SpillsDo | src/amd64.c:196-203 | Parameter i reaches temp i + 1, from a register or from the stack |
| EnterSimulation.EnterFits | src/amd64.c:185-194 | The callee's frame is in order below the caller's, and its cells are no address the program had |
| EnterSimulation.SimInside | src/amd64.c:145-203 | A call inside the program reaches the callee's first instruction in a matching state |
| BackEnd.StepSim | src/amd64.c:205-229 | Every IR step is one or more processor steps between matching states |
| BackEnd.RunSim | src/amd64.c:171-231 | Every run of n IR steps is followed by at least n processor steps, through any depth of calls, ending in a matching state, the same answer, or the exception of an `idiv` after the same calls |
| BackEnd.BootSim | src/amd64.c:189-203 | From the function's label with arguments passed as the ABI says, the entry code makes the first activation |
| StackDiscipline.FramesNest | src/amd64.c:191-194 | In a stack that is in order, the frame of every activation lies wholly below the frames of all activations that wait for it |
| StackDiscipline.FramesNestInRuns | src/amd64.c:191-194 | The same after any number of steps from the start of a program |
| StackDiscipline.ArgumentsArrive | src/amd64.c:196-203 | For every number of arguments, the value of argument temp i is in temp i + 1 of the callee |
| IrGenerator.LookupSymbol | src/ir.c:171-180 | The scope returned is the first on the way from parent to parent that declares the name, or none on the way does; that is the scope the chain of tables gives |
| ScopeChains.SetOwner | src/ir.c:380-386 | Writing the temp into the entry that the walk finds is what declaring the variable does to the chain of tables |
| IrGenerator.IrGen.IrLvalue | src/ir.c:221-246 | Appends exactly the lvalue's code, or fails exactly where the lowering is fatal |
| IrGenerator.IrGen.IrExpr | src/ir.c:270-378 | Appends exactly the expression's code, moves the temp counter to its end and returns the result temp, or fails exactly where the lowering is fatal |
| IrGenerator.IrGen.IrCall | src/ir.c:363-374 | The argument loop collects the temps in order |
| IrGenerator.IrGen.IrBump | src/ir.c:330-338 | One address serves the load and the store |
| IrGenerator.IrGen.NumberOf | src/ir.c:388-394 | A label keeps its number from the first time it is met |
| IrGenerator.IrGen.IrScope | src/ir.c:423-437 | The loop over a body appends the code of its statements, seen from the body's own scope, and changes no scope outside it |
| IrGenerator.IrGen.IrIfChain | src/ir.c:439-469 | Appends exactly the code of the chain, its conditions looked up in the scope that is handed on |
| IrGenerator.IrGen.IrWhile | src/ir.c:477-495 | Appends exactly the code of the loop |
| IrGenerator.IrGen.IrStatement | src/ir.c:497-510 | Lowers `if` and `while` in the parent of their body's scope; for a tree that the parser has built that appends exactly the code of the statement and leaves counters, label table and scopes as the lowering says |
| IrGenerator.IrGen.IrFunction | src/ir.c:512-545 | Prologue loop, body and implicit return make exactly the lowered function, from the tables that the parser has built |
| IrGenerator.GenIr | src/ir.c:547-568 | From the tree and the scopes of a parsed file, the functions of its program are lowered one after another, or none |
| AsmWriter.Writer.AsmOp | src/amd64.c:32-143 | Writes exactly the operation's instructions; an `alloc` takes the next cell |
| AsmWriter.Writer.AsmCall | src/amd64.c:145-169 | Padding, the push loop, the load loop and the clean-up make exactly the specified call |
| AsmWriter.Measure | src/amd64.c:172-183 | One pass finds the highest temp and the number of cells |
| AsmWriter.Writer.AsmFunction | src/amd64.c:171-231 | Writes exactly the function's listing |
| AsmWriter.Writer.Dump | src/amd64.c:252-259 | Writes exactly the listing of the program |
| Expressions.ParserIsExact | src/expr.c:163-198 | For any precedences and associativities, the parser returns t if and only if t stands at that position and cannot go on; it consumes exactly t's tokens |
| Expressions.OneReading | src/expr.c:163-198 | Two trees that stand at one position and cannot go on are the same tree |
| Expressions.ExprSound | src/expr.c:163-198 | What is returned stands where it began, and the next token is below the threshold or ends expressions; malformed input included |
| Expressions.ExprComplete | src/expr.c:163-198 | Any tree that stands there and cannot go on is found |
| Expressions.ArgsComplete | src/expr.c:79-104 | The same for argument lists with optional commas |
| Printing.PrintThenParse | src/expr.c:112-198 | Printing an expression and parsing it is the identity, for any sane grammar |
| Printing.FewestTokens | src/expr.c:112-198 | No tree of the same expression that reads the same way has fewer tokens than the printed one, which writes an index as an index |
| RoundTrip.Groups | src/expr.c:163-198 | In any grammar, of two operators between any three operands the first takes the middle one exactly when it has the higher level, or the same level and that level groups to the left |
| RoundTrip.SameLevelGroups | src/expr.c:184-188 | Two operators of one level, between any operands, group to the left exactly when they are assignments |
| RoundTrip.HigherBindsTighter | src/expr.c:39-72 | Of two operators of different levels, between any operands, the higher binds tighter, on either side |
| RoundTrip.StmtBack | src/parser.c:219-248 | Printing any statement and parsing it gives the statement, without a message |
| RoundTrip.LinkBack | src/parser.c:84-117 | The same for chains of `else if` |
| RoundTrip.AutosBack | src/parser.c:30-62 | A list of names with sizes is read as one declaration for each, in order |
| RoundTrip.ParamsBack | src/parser.c:286-299 | The names of the parameters come back in order |
| SymbolTables.ParamsNumbered | src/parser.c:286-299 | The k-th of distinct parameters has the number k in the parser's table and in the lowering's |
| SymbolTables.BodyTemps | src/parser.c:49-52 | The table that the parser builds for a body is the one with which the lowering opens the block |
| SymbolTables.LabelTempsAre | src/parser.c:207-217 | The parser's label table is the one with which the lowering begins the function |
| ScopeChains.ParentsEnclose | src/parser.c:250-273 | In every parsed file the parent of a body's scope is the scope the body stands in; a function's body stands in the scope of its parameters, and that in the scope of the globals |
| RoundTrip.PrintThenRead | src/parser.c:312-334 | Printing a file of functions, globals and externals and parsing it gives the file |
| RoundTrip.TextThenFile | src/lexer.c:43-198 | The same from the text on, indexing included |
| RoundTrip.IndexSpelled | src/expr.c:136-158 | An index can be spelled when its name and its inner expression can |
| Statements.ReadStmt | src/parser.c:219-248 | On any token list, malformed ones included, a statement is read in finitely many steps, takes at least one token and never passes the end |
| Statements.ReadBody | src/parser.c:250-268 | A body is read up to a closing brace or not at all, on any token list |
| Parsers.Parser.ExpectAndConsume | src/parser.c:370-384 | On a mismatch there is one message and no step |
| Parsers.Parser.ParseLeftF | src/expr.c:112-161 | Reads exactly the primary expression the specification reads, index expansion included |
| Parsers.Parser.ParseFunctionCallS | src/expr.c:79-104 | The argument loop reads exactly the specified arguments |
| Parsers.Parser.ParseExprF | src/expr.c:163-198 | The loop returns exactly the specified tree, position and messages, or ends where it does |
| Parsers.Parser.ParseAutoS | src/parser.c:30-62 | The loop over names reads exactly the specified declarations, and gives each an entry with its stack offset |
| Parsers.Parser.ParseScopeF | src/parser.c:250-273 | The loop over statements reads exactly the specified body into a scope of its own, with the table of its declarations and its parent |
| Parsers.Parser.ParseStatementsF | src/parser.c:219-248 | Appends exactly the statements the specification reads, with their scopes, table entries and labels |
| Parsers.Parser.ParseFunctionS | src/parser.c:275-310 | Reads exactly the specified function into a tree with a scope of numbered parameters and a table of its labels |
| Parsers.Parser.ParseGlobalS | src/parser.c:161-194 | Reads exactly the specified globals and enters each with its size into the table of the globals |
| Parsers.Parser.ParseFile | src/parser.c:312-334 | Reads every definition to the end of the list; what comes out is the tree and the scopes of exactly the specified file |
| Lexing.LongestMatch | src/lexer.c:120-190 | Of all operators that stand at a position the longest is taken, and it is the only one of that length |
| Lexing.LexingUndoes | src/lexer.c:43-198 | Lexing the spelling of words, numbers, strings, characters and operators gives back their kinds, spellings and values, keywords apart from identifiers, strings numbered in order |
| Lexing.TokensComeBack | src/lexer.c:43-198 | Every token list the lexer could have made is what it makes of its spelling |
| Strings.LiteralIsExact | src/lexer.c:242-292 | Scanning and decoding accept a body if and only if it spells a text between its quotes, and give that text |
| Strings.ScanPairs | src/lexer.c:246-264 | The scan never leaves a dangling `*` for the decoder |
| Strings.DecodeUndoes | src/lexer.c:269-292 | Decoding inverts the escape encoder |
| Strings.DecodeInPlace | src/lexer.c:269-292 | In the literal's own buffer the decoder computes the decoded text, never writing past what it has read |
| Strings.DataIs | src/amd64.c:263-274 | A literal without zeros is written whole with a zero behind it, and nothing of it from a zero on |
| Strings.WriteData | src/amd64.c:263-274 | The loop writes exactly those bytes |
| Lexers.Lexer.GetDigit | src/lexer.c:309-347 | The scan ends where the number ends, in every base |
| Lexers.Lexer.GetString | src/lexer.c:242-300 | Scan, copy and in-place decoding give the literal's text and the position behind it, or fail where it is malformed |
| Lexers.Lexer.GetOperator | src/lexer.c:120-190 | Takes exactly the specified operator |
| Lexers.Lexer.SkipComment | src/lexer.c:106-118 | Stops behind the first star and slash after the opening slash |
| Lexers.Lexer.Lex | src/lexer.c:43-198 | The loop produces exactly the specified token list |
| Naming.InnermostWins | src/ir.c:171-180 | With the tables of a chain numbered outwards, a name denotes the entry of the first table that declares it |
| Naming.OnlyThenGlobal | src/ir.c:171-188 | A name denotes a global exactly when only the outermost table has it, and nothing exactly when no table has it |
| Naming.DeclaresInnermost | src/ir.c:380-386 | Declaring writes the entry of the first table that has the name and no other entry of any table |
| Naming.ParameterHidesGlobals | src/ir.c:171-180 | In every block that does not declare the name again a parameter denotes its own cell in the source and its own temp in the lowered code, whatever the globals are |
| Naming.AutoHidesOuter | src/parser.c:30-62 | Behind `auto x`, in every inner block that does not declare x again, x denotes that declaration, whatever encloses it |
| Operators.ArithmeticMeans | src/ir.c:190-209 | `+`, `-` and `*` of operands with the values x and y, left evaluated first, answer the sum, difference and product modulo 2 to the 64 |
| Operators.ComparisonsMean | src/ir.c:200-206 | The six comparisons answer 1 or 0 by the signed numbers that the words stand for |
| Operators.DivisionMeans | src/ir.c:194-195 | `/` and `%` answer the quotient truncated toward zero and its remainder, and fail exactly where the divisor is 0 or the quotient would be 2 to the 63 |
| Operators.BitwiseAnswers | src/ir.c:196-197 | Every bit of the bitwise and is that of both operands, and of the bitwise or that of either |
| Operators.ShiftsMean | src/ir.c:198-199 | `<<` and `>>` move every bit by the count modulo 64, `>>` filling up with the sign |
| Operators.OthersRefused | src/ir.c:354-357 | Every other kind of token but assignment is refused as an operator, by the semantics and by the lowering |
| Operators.OperationOf | src/ir.c:190-209 | The IR operation that is emitted for each of the fifteen kinds, behind the code of the left and of the right operand |
| Bits.BitwiseMeans | src/amd64.c:89-125 | What every bit of and, or, shift left and arithmetic shift right is |
| Rules.AssignMeans | src/ir.c:347-352 | Assignment computes its right side, then the address, and writes the word there, which is its value |
| Rules.BumpMeans | src/ir.c:330-338 | `++e` and `--e` compute the address once and write one more or one less modulo 2 to the 64 |
| Rules.BumpIsAssignment | src/ir.c:330-352 | `++x` is `x = x + 1` and `--x` is `x = x - 1`, faults included |
| Rules.ReadMeans | src/ir.c:281-318 | Reading a variable or what an address points to takes the address first, then the word there, or fails where there is none |
| CallRules.OutsideCall | src/ir.c:363-374 | A call leaving the program evaluates any number of arguments from left to right and makes one event with their values and the answer |
| CallRules.InsideCall | src/ir.c:363-374 | A call inside the program enters the first function of that name with the values of the arguments |
| CallRules.ParameterHoldsArgument | src/ir.c:526-530 | Where a function begins its i-th parameter holds the i-th argument, whatever globals there are |
| CallRules.ReturnsItsArgument | src/ir.c:512-545 | A function that returns its i-th parameter answers its i-th argument, even where a global has that name |
| CallRules.FallsOffTheEnd | src/ir.c:534-537 | A function that ends without `return` answers 0 |
| StatementRules.IfChooses | src/ir.c:439-469 | The first body where the condition is not 0, and otherwise what follows it |
| StatementRules.WhileRepeats | src/ir.c:477-495 | Nothing where the condition is 0, otherwise the body and behind it the loop again |
| StatementRules.GotoLands | src/ir.c:388-410 | A jump to a label directly in the body goes on with the text behind the label, in the scope of all that is declared before it |
| StatementRules.ArrayRemembers | src/amd64.c:238-247 | A program that writes c to element i of a global of n words and reads it back answers c, for every i below n |
| Acceptance.LowersExactly | src/ir.c:182-188 | A program is lowered exactly when every name is declared before its use in the innermost block that declares it, places stand where places are needed, operators are known, and every `goto` has its label |
| Acceptance.LabelsStand | src/parser.c:209-217 | The labels of a body are exactly those that stand in it at any depth |
| Grouping.OperatorsGroup | src/expr.c:39-72 | For the eight levels of operators listed by kind: of two operators between any three operands the first takes the middle one exactly when its level is the tighter one, or both are assignments |
| Grouping.SumsOfProducts | src/expr.c:55-63 | `x + y * z` is `x + (y * z)` and `x * y + z` is `(x * y) + z`, for all additive and multiplicative operators and all operands |
| Grouping.OperandEnds | src/expr.c:65-71 | Behind an operand a comma, a closing bracket or a semicolon ends the expression, and a token that is no operator ends the process |
| Grouping.PrefixTakes | src/expr.c:19-30 | Exactly seven kinds of tokens are prefix operators; any other token but an opening parenthesis is an operand by itself |
| Programs.FunctionsInOrder | src/ir.c:547-556 | The functions of the program are those of the file, in order, with their names, parameters and bodies |
| Programs.GlobalsWithSizes | src/ir.c:557-560 | The globals of the program are exactly those the file defines, each with the size in its last definition |
| Programs.CompoundOnly | src/ir.c:423-428 | Exactly the files whose function bodies are compound statements stand for a program |
| Programs.GlobalsStartZero | src/amd64.c:238-247 | A program starts with exactly the words of its globals, all zero: n for a global declared with n > 0, one otherwise |
| Pipeline.LaidOutProgram | src/lexer.c:43-198 | However the tokens of a file are laid out, its text is compiled as the program with the functions and the sized globals of the file |
| Forms.ExpressionForms | src/parser.c:150-207 | `return e;` and `e;`, token by token |
| Forms.JumpForms | src/parser.c:138-217 | Labels and `goto`, token by token |
| Forms.DeclarationForms | src/parser.c:30-82 | `extrn x;`, `auto x;` and `auto x[n];`, token by token |
| Forms.NestedForms | src/parser.c:84-136 | Blocks, `while`, `if`, `else` and `else if`, token by token |
| Forms.DefinitionForms | src/parser.c:161-334 | Globals, sized globals, externals and functions, token by token |
| Forms.InfixForm | src/expr.c:163-198 | `x op y` is read with x on the left and y on the right, for every binary operator |
| Forms.PrefixForm | src/expr.c:106-110 | `op x` is read as the operator applied to x, for every prefix operator |
| Forms.BracketForms | src/expr.c:79-161 | `x(y, z)`, `x[y]` and `(x)`: a call with its arguments in order, `*(y * 8 + &x)`, and x |
| Forms.GlobalsBack | src/parser.c:161-194 | A definition with a list of names is read as one global for each, with its size |
| Forms.ExtrnsBack | src/parser.c:64-82 | An `extrn` with a list of names is read as one declaration for each |
| Forms.StrayComma | src/parser.c:219-248 | A stray comma is passed over |
| Forms.MissingSemicolon | src/parser.c:370-384 | A statement without its semicolon is read with one message, and the token in its place is not taken |
| Forms.MissingParenthesis | src/expr.c:115-120 | The same for a parenthesis that is never closed |
| Spacing.LayoutLexes | src/lexer.c:48-119 | Words, numbers, literals and operators, with any of the six blank characters and any comments between them, or nothing where none runs on into the next, are lexed to their tokens |
| Spacing.SpacedLexes | src/lexer.c:48-119 | At least one blank, line end or comment between any two tokens is always enough |
| Spacing.OpenComment | src/lexer.c:106-118 | A comment that is never closed hides the rest of the file |
| Spacing.ForeignCharacter | src/lexer.c:185-192 | A character that begins nothing is an unknown token by itself |
| Spacing.WordsMean | res/keywords.gperf:13-19 | The seven keywords in lower case, and every other word is an identifier |
| Spacing.OnlySymbols | src/lexer.c:138-186 | Exactly 29 kinds of tokens are written as operators or separators |
| Spacing.SeparatorsAre | src/lexer.c:139-151 | The characters of the separators |
| Spacing.ArithmeticAre | src/lexer.c:148-158 | The characters of the arithmetic, bitwise and logical operators |
| Spacing.ComparisonsAre | src/lexer.c:158-183 | The characters of assignment, comparisons and shifts |
| Literals.NumeralsAreTokens | src/lexer.c:80-87 | The numeral of every number in bases 10, 16, 2 and 8, prefix and letters in either case, is one token and means the number, or the largest 64-bit number where it is larger |
| Literals.CharactersMean | src/lexer.c:99-102 | `'c'` means the code of c, sign-extended from 8 bits |
| Literals.EscapesMean | src/lexer.c:271-287 | The nine escapes, one by one, and that any other ends the process |
| Literals.UnclosedDies | src/lexer.c:246-264 | A literal that is not closed on its line ends the process |
| Literals.StringsNumbered | src/lexer.c:92-96 | In any file the string literals are numbered from 1 in the order of the text |
| Abi.OutsideTakes | src/amd64.c:145-163 | An outside function takes its arguments from rdi, rsi, rdx, rcx, r8, r9 and then from the stack upwards from rsp |
| Abi.BootTakes | src/amd64.c:196-203 | A program is started with its arguments in the same registers and behind the return address |
| Abi.OutsideScribbles | src/amd64.c:162-168 | Outside functions may leave any value in the scratch registers and in their part of the stack, and keep rsp, rbp and everything else |

## Left out

- X86.CallOut: an outside function answers, makes an event and may scribble over scratch registers and its own part of the stack, but does not write the program's globals or cells; the run-time library in `res/` is not part of this model.
- FunctionSimulation.LoweringPreservesMeaning: labels are assumed distinct within a function, and a store outside every live cell and global is the fault `Unmapped` rather than a corruption of whatever lies there.
- Compiler.CompilerCorrect: function names are assumed distinct; nothing is promised of the processor where the source has a fault other than a missing quotient (uninitialised or unmapped memory, wrong number of arguments, no room on the stack).
- Source.EvalAtom: a string literal is the address of its data; the bytes behind it are not in the word memory, so byte-wise library routines are not modelled.
- Statements.ProgramOf: a function body that is not a compound statement parses, but is not lowered.
- Lexers.Lexer.GetString: the zero that `get_string` writes behind the decoded text, and the scan of the copy's own terminator, are not modelled; the text is what is compared.
- IrGenerator.IrGen.IrScope: scopes are numbers into one list of records rather than objects, and tables are maps in those records; freeing a table after its scope is lowered is not modelled.
- Local arrays: `auto a[n]` reserves one cell whatever n is, as the code does; arrays are proved for globals.
- Names declared twice in one scope: the later entry replaces the earlier one in the tables, and each still has its cell.
- Line and column numbers, message texts, the IR dump, and the NASM spelling of instructions and sections.
- Bytes from 128 on outside literals are unknown characters, as in the C locale.
- `extrn` lines only produce a directive for the assembler; they are parsed and otherwise ignored.
- Arena allocation, hash sets, the generated keyword table, files, flags and the driver: arenas are garbage-collected values, tables are maps, keywords are the list in `res/keywords.gperf`.
- The file is taken to be followed by a zero byte, which stops every scan at its end.
