# PyCC, modelled and proved

PyCC compiles a subset of Python: `src/Tokenize.py` and `src/PyCCParser.py` make a tree of the source, `src/IRCompiler.py`
lowers the tree to a flat instruction list with labels and temporaries, `src/PyCCIR.py` emits x86-64 assembly for that list,
and `runtime/PyCCRuntime.c` is what compiled programs may call. This project models the hard parts of each in Dafny and
proves what they are for.

The modules, from the source text to the machine:

- `LineScanner`, `Layout`, `SourceLines`, `ExprParser`, `StmtParser`: the scanner of a line, the indentation machine, the way from
  the text to its lines and the two parsers as functions; `PyParser` has the parser as a class with its cursor. `Syntax`,
  `ExprRoundTrip`, `StmtRoundTrip`, `LayoutRoundTrip` and `LineRoundTrip` have printers that write parentheses only where
  precedence needs them, and the proofs that scanning, tokenizing and parsing undo them; `Literals` lists the ways to write a
  number or a string. `Precedence` spells out which operator is tighter than which, `ParserBuilds` and `ProgramBuilds` which trees
  the parser can build, `StmtForms` the forms of statements that the printer does not write, and `LayoutFacts` what the
  indentation machine does with a line. `TripleQuotes` and `FString` are the two rewriters of literals; `LiteralPieces` says
  where triple quotes open and close, `FStringPieces` where the expressions of an f-string do, and `QuotesInComments` what goes wrong between them and the scanner.
- `TreeMeaning` is a direct evaluation of the parser's own trees, each operator spelled out as arithmetic. `SubsetTrees` is the
  step from those trees to the ones the compiler is given, and `MeaningKept` proves that it keeps their meaning.
- `Words`, `Python`: 64-bit words (`WordLaws` says bit by bit what their operations are, since the source and the processor
  share them), and the direct evaluation of the int/bool subset (assignment, augmented assignment,
  `if`/`elif`/`else`, `while`, `for` over `range`, `break`, `continue`, `return`, calls of user functions). `Typing` is the
  typing discipline under which the compiler is right, `IntPrograms` a large class of programs that meet it, told from their text
  alone, `TypingNeeded` shows what goes wrong outside it, `Names` which names clash,
  `Builtins` lists the names the compiler handles itself, and `ForRange` says when a compiled counting loop is Python's.
- `IR`: the instruction list as a machine over temporaries and names. `Lowering` says what the compiler emits; `IRCompiler`
  (module `Compiler`) is the compiler itself, classes whose methods change `fn`, `vars`, `loop_exit` and `loop_cont`, each
  method proved to leave exactly the state `Lowering` says. `LoweringCorrect` proves that the emitted code of an expression
  means what the tree means, `LoweringStmts` (with `LoweringEnds`, `LoweringSimple`, `LoweringIf`, `LoweringWhile` and
  `LoweringFor`) that of a statement, `LoweringProgram` that of functions and programs. `IRCheck` is a one-pass verifier of IR
  code, with a proof that accepted code is safe on every run, and `LoweringChecked` proves that all compiled code is accepted;
  `LoweringNamed` does the same for the names that are loaded.
- `X86`: the instructions the backend uses, over registers, flags and a stack in memory. `Backend` says what is emitted, and
  `X86Backend` is the emitter with its maps and its output list. `BackendSlots` proves the frame size sufficient,
  `BackendOps`, `BackendLayout`, `BackendCorrect` and `BackendCalls` prove the forward simulation and the calling convention,
  and `EndToEnd` joins both halves. `WholeCompiler` puts the front end before them. `PythonMonotone` shows that the bounds in
  the source semantics do not decide results, `Divergence` that a body has no result exactly if its IR never ends, `OpenRuns` and
  `WholeProgram` that a program has the results of its IR and no others, and `BackendEndless` and `EndlessPrograms` that a loop
  without an end never ends in the machine.
- `Dict`, `Checksums`, `Base64`, `Replace`, `Gcd`: the runtime. `CrcRemainder` says which remainder the CRC is, and
  `PublishedValues` has values that others have published. `Encoders`: string data for the two assemblers.

How partiality is modelled: `None` from a parser is a syntax error or a construct outside the modelled grammar; the flag `ok` of
the compiler is off after a Python exception or outside the subset; `Unknown` is a call without an answer (a name read before
it is assigned, or more passes or nested calls than the bound, which is universally quantified). Dividing by zero, or the least
word by -1, is `Faults`, and the machine's divide error.

The code and its documentation disagree in a few places, and the model follows the code: `is not` is in the grammar but cannot
be parsed (`ExprRoundTrip.IsNotFails`); triple quotes are collapsed before comments are recognised
(`QuotesInComments.CommentSwallows`); a call of a function that is defined later is compiled to the constant 0
(`TypingNeeded.LaterIsNotCalled`); a `while` or `for` `else` is parsed and dropped by the compiler; `//` and `%` truncate;
a `for` over a `range` that counts down never runs its body (`ForRange.DownwardFails`).

## Model

| member | source | states |
|---|---|---|
| `EndToEnd.CompiledCall` | src/PyCCIR.py:254-289 | Calling the machine code of any function of any well-typed program, with arguments in the registers of the convention, returns in `rax` what the source function returns and restores `rbp`, `rsp` and the caller's stack; a source divide error is the machine's. For every program, call depth, argument list and machine state with an aligned stack. |
| `EndToEnd.CompiledMain` | src/IRCompiler.py:1252-1260 | The same for the entry point: the exit value of the emitted program is the result of the top-level statements. |
| `WholeCompiler.ScriptRuns` | src/IRCompiler.py:1252-1280 | Source text to machine: any program of the int/bool subset, functions included, written with any indentation, blanks and tabs, line breaks between brackets, notation of its literals, blank lines and comments, is collapsed, split into lines, scanned, tokenized, parsed and compiled to machine code whose entry point ends with what the direct evaluation of the program's own tree gives (`TreeMeaning.NodeMain`). |
| `WholeCompiler.FunctionRuns` | src/IRCompiler.py:1217-1247 | And a call of the machine code of any of its functions returns what the direct evaluation of that function's tree gives (`TreeMeaning.NodeCall`), for all arguments. |
| `MeaningKept.ValueKept` | src/IRCompiler.py:130-409 | The program handed to the compiler means what the parsed text means: an expression's value is that of its tree, where `-` is `Wrap(a - b)`, `<` is `a < b`, `//` truncates, and so on for every operator. |
| `MeaningKept.DoneKept` | src/IRCompiler.py:858-1124 | The same for every statement, its loops, arms and jumps included. |
| `MeaningKept.CallKept` | src/IRCompiler.py:1217-1247 | And for the functions of a program that call each other. |
| `MeaningKept.MainKept` | src/IRCompiler.py:1252-1260 | And for the top-level statements. |
| `WholeProgram.SameAnswers` | src/IRCompiler.py:1217-1247 | Whole programs, over all bounds, recursion included: for every call of every typed program that the source describes, the compiled program gives a result if and only if the source gives it. |
| `WholeProgram.NoAnswers` | src/IRCompiler.py:1217-1247 | So a call without a result in the source, be it for a loop or for calls without an end, has none in the compiled program, and the other way round. |
| `WholeProgram.SameMain` | src/IRCompiler.py:1252-1260 | The same for the top-level statements. |
| `OpenRuns.ExecTracks` | src/IRCompiler.py:858-1124 | What an evaluation comes to with answers that are each found under some bound, it comes to under one bound, unless it meets what the semantics does not describe. |
| `EndlessPrograms.CompiledForever` | src/IRCompiler.py:1011-1074 | A source function whose body ends under no bound on its passes never ends in the machine: its code is still running after every number of instructions. |
| `EndlessPrograms.MainForever` | src/IRCompiler.py:1252-1260 | The same for the entry point. |
| `BackendEndless.FunctionForever` | src/PyCCIR.py:254-289 | An endless run of any IR function is an endless run of its machine code: the IR cannot go on for long without an instruction of the machine. |
| `Divergence.SameResults` | src/IRCompiler.py:1217-1247 | One body, with answers to its calls: the IR gives a result if and only if the source gives it under some bound. |
| `Divergence.SameEndless` | src/IRCompiler.py:1217-1247 | And the IR of the body runs forever if and only if the source is out of time under every bound. |
| `PythonMonotone.OneResult` | src/IRCompiler.py:858-1124 | A source program has at most one result, whatever the bounds on iterations and nested calls under which it is found. |
| `PythonMonotone.CallMore` | src/IRCompiler.py:1217-1247 | The same for calls of its functions. |
| `LoweringCorrect.ExprRuns` | src/IRCompiler.py:130-409 | From a state that agrees with the environment, the code emitted for an expression runs to a state where its temporary holds the value of the tree (or to the divide error), with all earlier temporaries and all names unchanged. |
| `LoweringCorrect.ChainRuns` | src/IRCompiler.py:351-388 | A compare chain of any length evaluates every operand once, from the left, and yields the conjunction of the neighbouring comparisons. |
| `LoweringCorrect.FoldRuns` | src/IRCompiler.py:390-400 | `and`/`or` over any number of operands: all operands are evaluated, then their truth values are combined. |
| `LoweringCorrect.SelectRuns` | src/IRCompiler.py:402-409 | The ternary evaluates all three operands and selects by the truth of the test. |
| `LoweringStmts.StmtRuns` | src/IRCompiler.py:858-1124 | The code of a statement ends as the statement does: falling through with the environment of the tree, at the break or continue label of the loop around it, at a return with the value, or with the divide error. |
| `LoweringStmts.StmtsRuns` | src/IRCompiler.py:845-860 | The same for a list of statements, where the statements behind a terminator emit nothing. |
| `LoweringStmts.IfRuns` | src/IRCompiler.py:977-1009 | `if` with any number of `elif` arms and an optional `else`: the first arm whose test holds is run, and control arrives at the merge label. |
| `LoweringStmts.WhileLoop` | src/IRCompiler.py:1011-1028 | By induction on the iterations, the loop between its labels does what the evaluation of `while` does, through `break`, `continue` and `return` in its body. |
| `LoweringStmts.ForLoop` | src/IRCompiler.py:1044-1074 | For every start, stop and step, overflow and negative steps included: by induction on the passes, the emitted loop tests `<`, runs the body with the index in the loop variable and adds the step modulo 2^64, whatever the body does to the variable; `continue` advances. |
| `LoweringProgram.BodyResult` | src/IRCompiler.py:1217-1247 | One function: for every typed parameter list and body, all arguments and all bounds, running the emitted IR returns what evaluating the body returns (0 when it falls through), or faults as it does. |
| `LoweringProgram.ProgramCall` | src/IRCompiler.py:1217-1247 | For every well-typed program and call depth, running the IR of a function gives what the source function gives; by induction on the depth, so a function may call itself and the functions before it. |
| `LoweringProgram.ProgramMain` | src/IRCompiler.py:1252-1260 | The IR of the entry point gives the result of the top-level statements. |
| `LoweringProgram.CompiledIsSafe` | src/IRCompiler.py:1217-1247 | On every run of every compiled body, of any length, with any arguments and any answers to its calls: no temporary is read before it is written, every jump finds its label, control never runs off the end. |
| `LoweringProgram.CompiledIsTidy` | src/PyCCIR.py:65-102 | Every compiled body passes the one-pass check; each label is placed once, each temporary has one definition, each jump's label is placed. |
| `LoweringChecked.StmtOk` | src/IRCompiler.py:858-1124 | Code that the one-pass check accepts is still accepted after any statement is appended to it. |
| `LoweringChecked.ForOk` | src/IRCompiler.py:1030-1106 | The index, stop and step temporaries of a counting loop are assigned on every way to the increment block. |
| `IRCheck.AcceptedIsSafe` | src/PyCCIR.py:57-105 | What the one-pass check of labels, jumps, definitions and assignments guarantees for any code and any run. |
| `LoweringNamed.BodyNamed` | src/IRCompiler.py:63-73 | Every name a compiled body loads is declared or stored to at an earlier place of its code. |
| `LoweringNamed.LoadsKnown` | src/PyCCIR.py:378-384 | So when the backend meets a load, the name has its slot. |
| `Words.KeepsBitsIff` | src/IRCompiler.py:281-346 | Which integer operators keep 0/1 values in 0/1: all but `+`, `-` and `<<`; this is the exact condition of `Typing` on two `bool` operands. |
| `WordLaws.BitwiseIs` | src/PyCCIR.py:478-494 | Bit k of the bitwise and, or and exclusive or of two words is the and, or and exclusive or of their k-th bits in two's complement, for all 64 bits. |
| `WordLaws.ComplementIs` | src/PyCCIR.py:503-511 | The complement turns every bit round. |
| `WordLaws.ShiftIs` | src/PyCCIR.py:513-524 | A left shift moves every bit up and lets zeros in, a right shift moves every bit down and repeats the sign; only the six lowest bits of the count matter. |
| `WordLaws.WordIsBits` | src/PyCCIR.py:478-524 | The 64 bits of the three rows above are all there is to a word. |
| `WordLaws.WrapKeeps` | src/PyCCIR.py:399-415 | Wrapping a sum, a difference or a product keeps its 64 lowest bits. |
| `WordLaws.WrapIs` | src/PyCCIR.py:399-415 | And it changes a number by a multiple of 2^64. |
| `WordLaws.TruncIs` | src/PyCCIR.py:417-430 | Quotient and remainder belong together, the remainder is smaller than the divisor and has the dividend's sign. |
| `TypingNeeded.BoolSumDiffers` | src/IRCompiler.py:343-346 | Without it the compiler is wrong: for `(True + True) and True` the source returns 1 and the compiled code 0. |
| `TypingNeeded.ComplementDiffers` | src/IRCompiler.py:261-263 | The same for `~True and True`. |
| `TypingNeeded.NegationDiffers` | src/IRCompiler.py:253-260 | And for `-True or False`: 1 and -1. |
| `TypingNeeded.MixedArmsDiffer` | src/IRCompiler.py:402-409 | And for `(True if False else 2) and True`, whose type is that of the first arm. |
| `TypingNeeded.SumIsNotCalled` | src/IRCompiler.py:727-728 | A function of the program called `sum` is never called: the compiled code returns 0 where the source returns the function's 1. |
| `TypingNeeded.LaterIsNotCalled` | src/IRCompiler.py:746-751 | Nor is a function that is defined later: for `def f(): return g()` before `def g(): return 1` the source's `f()` is 1 and the compiled `f` returns 0, and the compiler reports nothing. |
| `TypingNeeded.CallsIff` | src/IRCompiler.py:746-838 | A call is compiled to a call if and only if the function is known by then and the compiler does not handle the name itself; `Builtins.AnyNumber`, `Builtins.FromOneOn` and `Builtins.OtherNumbers` list those names by the number of arguments, and `Builtins.ConstantCalls` those that become constants. |
| `TypingNeeded.KnownIff` | src/IRCompiler.py:1217-1247 | Known are the functions defined so far, the one that is being compiled included. |
| `IntPrograms.Typed` | src/IRCompiler.py:845-1124 | A program whose names all are integers, by a rule on its text alone, is well-typed and compiled without an error: with every kind of statement, truth values in tests, in `and`, `or`, `not` and `return`, and names used only where they have a value for certain. |
| `Names.NamesApart` | src/IRCompiler.py:1040-1042 | Names of a program that do not start with `__for_idx_` and the indices of its loops are different strings; `Typing` asks for such names. |
| `ForRange.RangeClosed` | src/IRCompiler.py:1044-1074 | A range with a positive step has `max(0, ceil((stop - start) / step))` elements, the k-th is `start + k * step`. |
| `ForRange.WalksIff` | src/IRCompiler.py:1057-1074 | The compiled loop, which tests `<` and adds modulo 2^64, walks Python's range if and only if the step is positive and the progression stays below 2^63, or the step is negative and both ends are equal. |
| `ForRange.LoopIsPython` | src/IRCompiler.py:1044-1074 | With a positive step and no overflow the loop of `LoweringStmts.ForLoop` runs any body for the elements of Python's range, so `max(0, ceil((stop - start) / step))` times unless it breaks or returns. |
| `ForRange.LoopVisits` | src/IRCompiler.py:1057-1074 | For every start, stop and step, the values that loop gives its variable are those `WalksIff` is about. |
| `ForRange.OverflowFails` | src/IRCompiler.py:1072 | `range(2^63 - 2, 2^63 - 1, 2)` has one element; the compiled loop goes on with the least word, and a body tells the difference. |
| `ForRange.DownwardFails` | src/IRCompiler.py:1062 | Counting down, Python runs the body at least once and the compiled loop never. |
| `Compiler.IRCompiler.Expr` | src/IRCompiler.py:130-409 | The method on the compiler's fields leaves the code, counters and `ok` that the lowering function gives, and its result. |
| `Compiler.IRCompiler.Chain` | src/IRCompiler.py:363-388 | The loop over the comparators. |
| `Compiler.IRCompiler.Bools` | src/IRCompiler.py:390-400 | All operands, then the loop that combines them. |
| `Compiler.IRCompiler.StoreTo` | src/IRCompiler.py:886-903 | The loop over assignment targets, which declares the new ones with the type of the value. |
| `Compiler.IRCompiler.Augment` | src/IRCompiler.py:927-968 | Augmented assignment, with the error for an unknown name. |
| `Compiler.IRCompiler.Stmt` | src/IRCompiler.py:845-1124 | The whole state after a statement: code, counters, `vars`, `loop_exit` and `loop_cont`, the last two as before. |
| `Compiler.IRCompiler.IfStmt` | src/IRCompiler.py:977-1009 | The labels are made before the tests, in the code's order, and placed as the lowering says. |
| `Compiler.IRCompiler.WhileStmt` | src/IRCompiler.py:1011-1028 | The loop targets are set for the body and restored after it. |
| `Compiler.IRCompiler.ForStmt` | src/IRCompiler.py:1030-1106 | The counting loop with its hidden index, in the state the lowering says. |
| `Compiler.IRCompiler.FuncDef` | src/IRCompiler.py:1217-1247 | A function is compiled in a fresh context and the context is restored; the function table has the new function, also inside its own body. |
| `Compiler.CompileProgram` | src/IRCompiler.py:1252-1260 | The compiler's run over a whole program gives the IR functions about which the simulation is proved. |
| `BackendSlots.FrameHolds` | src/PyCCIR.py:210-264 | For every IR function: the slots handed out during emission never exceed the count made before, no two names or temporaries share an offset, every offset lies in the frame, the frame is a multiple of 16. |
| `BackendSlots.TouchOnward` | src/PyCCIR.py:291-337 | Each instruction touches only slots the counting pass has counted, and moves no slot given before. |
| `BackendLayout.PieceSits` | src/PyCCIR.py:339-728 | The code of the k-th instruction stands in the emitted list where the lengths before it say. |
| `BackendLayout.MarkFound` | src/PyCCIR.py:718-719 | A label of the IR is found in the emitted list at the place of its instruction. |
| `BackendOps.BinCodeDoes` | src/PyCCIR.py:399-530 | The emitted sequence of every two-operand opcode leaves in `rax` the IR result, through flags, `cqo`/`idiv`, `cl` and `setcc`, or raises the divide error exactly when the IR does; which bits that result has is `WordLaws`. |
| `BackendOps.UnCodeDoes` | src/PyCCIR.py:432-541 | The same for negation, complement, `not_` and zero extension. |
| `BackendOps.DivideDoes` | src/PyCCIR.py:417-430 | `cqo` and `idiv` truncate, and fault exactly on a zero divisor or a quotient that is no word. |
| `BackendCorrect.StepGets` | src/PyCCIR.py:339-728 | One step of the IR is some steps of the machine; afterwards every temporary's and name's slot holds its IR value, `rsp = rbp - frame`, and the caller's part of the stack is untouched. |
| `BackendCorrect.RunGets` | src/PyCCIR.py:339-728 | The same for runs of any length: a forward simulation that follows the same control path. |
| `BackendCorrect.CallReady` | src/PyCCIR.py:670-709 | At each emitted call `rsp` is a multiple of 16 and at or below all slots, and the arguments are in the registers of section 3.2.3 of the System V AMD64 ABI (or the Win64 ones, above the shadow space). |
| `BackendCorrect.Registers` | src/PyCCIR.py:267-289 | The argument registers of the two conventions one by one, and the shadow space. |
| `BackendCorrect.RetGets` | src/PyCCIR.py:711-716 | A return goes to the caller with the value in `rax`. |
| `BackendCorrect.LeaveRestores` | src/PyCCIR.py:711-716 | `leave` and `ret` give back the caller's `rbp`, `rsp` and return address. |
| `BackendCalls.FunctionConforms` | src/PyCCIR.py:254-289 | A call of an emitted function, made as the calling convention asks, behaves as the convention asks and gives the IR function's result. |
| `BackendCalls.ModuleConforms` | src/PyCCIR.py:185-208 | The same for a module whose functions call each other, by induction on the call depth. |
| `X86Backend.X86_64Backend.AllocLocal` | src/PyCCIR.py:291-295 | A first touch gives the next slot; the maps and the counter change as the slot function says. |
| `X86Backend.X86_64Backend.GetTmp` | src/PyCCIR.py:303-306 | A temporary keeps the slot it was given first. |
| `X86Backend.X86_64Backend.CountSlots` | src/PyCCIR.py:210-252 | The dry run counts each distinct name and each distinct temporary once. |
| `X86Backend.X86_64Backend.EmitInstr` | src/PyCCIR.py:339-728 | Each branch appends exactly the instruction's code and leaves the slot maps as the specification says. |
| `X86Backend.X86_64Backend.EmitFunc` | src/PyCCIR.py:254-289 | The output of a function is its specified code, with a fresh slot map. |
| `X86Backend.Emit` | src/PyCCIR.py:254-289 | The emitter, run on one function, produces the code the simulation is about. |
| `PyParser.Parser.ParseTernary` | src/PyCCParser.py:711-722 | The method moves the cursor to where the parsing function stops and returns its tree. |
| `PyParser.Parser.ParseInfix` | src/PyCCParser.py:724-817 | The left-associative loops of all binary levels. |
| `PyParser.Parser.ParseCompare` | src/PyCCParser.py:750-771 | The loop that collects a compare chain. |
| `PyParser.Parser.ParsePower` | src/PyCCParser.py:833-839 | `**` takes a unary expression on its right. |
| `PyParser.Parser.ParseCallAttr` | src/PyCCParser.py:854-879 | The loop over attributes, calls and subscripts. |
| `PyParser.Parser.ParsePrimary` | src/PyCCParser.py:914-988 | Literals, names, parentheses, tuples and lists. |
| `PyParser.Parser.ParseStmt` | src/PyCCParser.py:298-365 | The choice of the statement by its first token. |
| `PyParser.Parser.ParseExprStmt` | src/PyCCParser.py:664-705 | Assignments with several targets, augmented assignments and expressions. |
| `PyParser.Parser.ParseBlock` | src/PyCCParser.py:271-294 | The statements up to the matching DEDENT, or one statement on the line. |
| `PyParser.Parser.ParseIfRest` | src/PyCCParser.py:424-443 | The arms of an `if`, each `else` with its own header. |
| `PyParser.Parser.ParseParams` | src/PyCCParser.py:574-603 | The loop over the parameters of a definition. |
| `PyParser.Parser.ParseDefRest` | src/PyCCParser.py:543-556 | A definition: name, parameters and block. |
| `PyParser.Parser.ParseProgram` | src/PyCCParser.py:261-269 | The whole token list. |
| `ExprRoundTrip.RoundTrip` | src/PyCCParser.py:708-988 | For every expression tree: parsing the tokens the minimal-parenthesis printer writes gives the tree and consumes exactly those tokens, whatever follows that does not continue the expression. |
| `ExprRoundTrip.ShowInjective` | src/PyCCParser.py:708-988 | Precedence and associativity are unambiguous: no two trees have the same tokens. |
| `ExprRoundTrip.IsNotFails` | src/PyCCParser.py:750-771 | `is not` is a syntax error, whatever its operands are. |
| `ParserBuilds.BuiltIff` | src/PyCCParser.py:708-988 | A tree is what the parser makes of some tokens if and only if it is one of the trees of the round trip: nothing else is ever built. |
| `Precedence.TwoInfixes` | src/PyCCParser.py:724-817 | For each two of the fourteen infix operators and all operands: `a p b q c` is `a p (b q c)` if `q` is in a later group of the list `or`, `and`, bitwise or, `^`, `&`, shifts, `+ -`, `* / // % @`, and `(a p b) q c` otherwise. |
| `Precedence.InfixCompare` | src/PyCCParser.py:750-771 | `a p b < c`: the comparison takes `a p b` as its operand unless `p` is `and` or `or`. |
| `Precedence.CompareInfix` | src/PyCCParser.py:750-771 | `a < b p c`: likewise on the right. |
| `Precedence.NotFirst` | src/PyCCParser.py:740-748 | `not a p b` negates `a p b` unless `p` is `and` or `or`. |
| `Precedence.NotCompare` | src/PyCCParser.py:740-748 | `not a < b` negates the comparison. |
| `Precedence.SignFirst` | src/PyCCParser.py:819-839 | A sign is tighter than every infix operator but looser than a `**` behind it; it may stand before an exponent. |
| `Precedence.Powers` | src/PyCCParser.py:833-839 | `**` goes to the right and is tighter than every infix operator on either side. |
| `Precedence.AwaitFirst` | src/PyCCParser.py:841-852 | `await` is tighter than `**`. |
| `Precedence.Conditionals` | src/PyCCParser.py:711-722 | `a if t else b if u else c` goes to the right. |
| `Precedence.ConditionalLoosest` | src/PyCCParser.py:711-722 | The conditional is looser than every infix operator. |
| `Precedence.Parenthesized` | src/PyCCParser.py:914-988 | Tokens that parse to a tree parse to the same tree between parentheses, so in any number of them. |
| `Precedence.Commas` | src/PyCCParser.py:896-912 | Any number of commas may stand before an item of a call or a list and before the closing bracket. |
| `StmtRoundTrip.NodeParses` | src/PyCCParser.py:298-477 | A printed statement, with any nesting, parses to itself and consumes exactly its tokens. |
| `StmtRoundTrip.ProgramParses` | src/PyCCParser.py:261-269 | The same for whole programs. |
| `StmtForms.RowsParse` | src/PyCCParser.py:249-269 | Simple statements parse to themselves with any number of line ends and semicolons between them. |
| `StmtForms.InlineParses` | src/PyCCParser.py:271-294 | The body of any compound statement may stand behind its colon. |
| `StmtForms.AugDropped` | src/PyCCParser.py:664-705 | An augmented assignment to anything but a name is parsed as its left side alone. |
| `ProgramBuilds.BuiltIff` | src/PyCCParser.py:261-477 | A program without empty bodies is what the parser makes of some tokens if and only if it is one of the programs of the round trip. |
| `SourceLines.Tokenize` | src/Tokenize.py:770-832 | The whole of `tokenize`: collapsing, line splitting and the indentation machine give the token stream of the source text, line numbers included. |
| `SourceLines.SplitJoined` | src/Tokenize.py:777-777 | Any lines are the lines of the text they make with any of the eleven line ends behind them, the last with one or none, as long as no carriage return comes to stand before the line feed of an empty line. |
| `SourceLines.BreakIs` | src/Tokenize.py:777-777 | The characters that end a line are the ten that are a line end alone. |
| `SourceLines.LinesWhole` | src/Tokenize.py:777-777 | No line of a text holds any of the characters that end one. |
| `Layout.Tokenize` | src/Tokenize.py:773-832 | The method with its loops computes the token stream of the lines; what that stream has is in the rows on `LayoutFacts`. |
| `LayoutFacts.BetweenBrackets` | src/Tokenize.py:792-820 | While a bracket is open at the end of each line, over any number of lines: each next line adds its tokens and nothing else, whatever its indentation. No INDENT, no DEDENT, the same stack, and one NEWLINE behind the line that closes the last bracket. |
| `LayoutFacts.TokensOfLine` | src/Tokenize.py:777-820 | Line numbers are true: the tokens with the number of a line are those the scanner finds in that line, and none for a blank line or a comment line. |
| `LayoutFacts.DepthIs` | src/Tokenize.py:806-818 | The bracket depth is the largest number of unclosed brackets at any end of the tokens: a closing bracket without an opening one does not count. |
| `LayoutFacts.StartsAt` | src/Tokenize.py:779-791 | A line is taken from its first character that is no space; the spaces before it are its indentation; it is skipped if there is no such character or if it is a `#`. |
| `Layout.LinesSound` | src/Tokenize.py:774-823 | After any lines the indent stack increases strictly from 0 and its height is the nesting of the tokens. |
| `Layout.Balanced` | src/Tokenize.py:770-832 | For every source: INDENT and DEDENT balance, no prefix has more DEDENTs than INDENTs, line numbers never decrease or pass the last line. |
| `LineRoundTrip.ScannerLayoutFree` | src/Tokenize.py:543-706 | The line scanner meets the conditions of the rows on `Layout` and `LayoutFacts`. |
| `LineScanner.TokenizeLine` | src/Tokenize.py:543-706 | The scanning loop over a line, with its inner loops for strings and words, computes the token list; what that list has is in the rows on `Literals` and `LineRoundTrip`. |
| `Literals.NumeralReads` | src/Tokenize.py:657-706 | Every way to write a number in base 2, 8, 10 or 16, with either letter case, leading zeros and underscores anywhere behind the prefix, is scanned to exactly that number and to its end. |
| `Literals.FloatReads` | src/Tokenize.py:674-706 | Digits with a point, an exponent or both, with underscores, are one float token. |
| `Literals.StringReads` | src/Tokenize.py:560-609 | Every way to write a string, between either quote, raw or not, is scanned to exactly its text and to its end. |
| `Literals.FormattedReads` | src/Tokenize.py:560-609 | And an f-string is one token. |
| `Literals.StrayReads` | src/Tokenize.py:628-706 | A character that starts no token is passed over, and so is a `!` without a `=`. |
| `Literals.CommentReads` | src/Tokenize.py:543-558 | A comment goes to the end of its line; an arrow is one token. |
| `LineScanner.NamesAre` | src/Tokenize.py:469-503 | Names are the words that are none of the 35 keywords of Python. |
| `LineRoundTrip.ScanDotName` | src/Tokenize.py:611-627 | A word right behind a dot is a name whatever word it is, a keyword or not. |
| `LineRoundTrip.ScanText` | src/Tokenize.py:543-706 | Any tokens of the grammar, each written in any of its ways, with any spaces and tabs and a space only where two would run together, are read back: names are not cut by keywords or operators, operators are matched longest first, strings end at their own quote. |
| `LayoutRoundTrip.LinesClean` | src/PyCCParser.py:218-228 | Leaving the comments out of the token stream is leaving them out of each line. |
| `LayoutRoundTrip.WholeLines` | src/Tokenize.py:774-823 | A statement whose line goes on over several lines between brackets: INDENT or DEDENTs before the first only, all the tokens in their order, and one NEWLINE after the last. |
| `LayoutRoundTrip.SourceRoundTrip` | src/Tokenize.py:770-832 | For every source text whose collapsed lines are a printed program, each block indented by any larger amount, with expressions that go on over several lines between brackets, and with blank and comment lines anywhere: tokenizing and parsing gives the program; for any scanner that reads the lines back. |
| `LineRoundTrip.TextRoundTrip` | src/Tokenize.py:543-832 | Source text to tree with the actual scanner: any notation of the literals, any blanks and tabs, line breaks between brackets with any indentation and comments there, blank lines, comment lines and comments behind the code; literals may be written between triple quotes. |
| `LineRoundTrip.PlainRoundTrip` | src/Tokenize.py:543-832 | For a text without triple quotes the lines are those of the text itself. |
| `TripleQuotes.CollapsedSame` | src/Tokenize.py:711-767 | Collapsing leaves a source as it is if and only if no triple quote occurs in it. |
| `QuotesInComments.CommentSwallows` | src/Tokenize.py:770-777 | A triple quote in a comment is taken for an opening one: `# '''` and any text with no closing one and no line ends but carriage returns and line feeds is the empty program. |
| `TripleQuotes.Collapse` | src/Tokenize.py:745-767 | The rewriting loops compute the rewritten pieces of the source. |
| `LiteralPieces.PiecesIff` | src/Tokenize.py:711-767 | The literals of a source are found in one way only: outside them no triple quote starts, and each goes up to the first of its own triple quotes behind it, only the last possibly to the end of the text. |
| `TripleQuotes.SourceLinesKept` | src/Tokenize.py:711-767 | The source is its pieces; every character outside the literals stays, and any number of first pieces has as many newlines after the rewriting as before. |
| `TripleQuotes.ScanString` | src/Tokenize.py:595-609 | The scanning loop of a string literal. |
| `LineScanner.CollapsedIsOneToken` | src/Tokenize.py:595-609 | A collapsed literal is one STR token that holds exactly the escaped body. |
| `TripleQuotes.UnescapeBack` | src/IRCompiler.py:143-145 | The compiler's unescaping gives back the body without carriage returns if and only if it has no backslash and no double quote. |
| `FString.ParseFString` | src/Tokenize.py:506-541 | The loops compute the parts, for every string. |
| `FStringPieces.SplitIs` | src/Tokenize.py:506-541 | For every string, malformed ones included: it can be cut into characters, doubled braces and expressions, each of which goes up to the brace that closes it or to the end, and splitting gives the parts of these pieces. |
| `FString.RoundTripIff` | src/Tokenize.py:506-541 | Printing parts with doubled braces and splitting again gives the same parts if and only if no text is empty or follows a text, and each expression is trimmed, brace-balanced and does not start with a brace. |
| `FString.SplitShape` | src/Tokenize.py:506-541 | What splitting gives, for every string: no empty text, no two texts in a row, trimmed expressions. |
| `Dict.PyccDict.Set` | runtime/PyCCRuntime.c:792-796 | The finite map is updated at the key, the string counts from now on; every key stays once in the chain of its hash and `len` is the number of keys. |
| `Dict.PyccDict.SetInt` | runtime/PyCCRuntime.c:797-801 | The same for integers; the string of the key is kept. |
| `Dict.PyccDict.Get` | runtime/PyCCRuntime.c:802-802 | Agrees with the map at a key whose string counts; the empty string or null otherwise. |
| `Dict.PyccDict.GetInt` | runtime/PyCCRuntime.c:803-803 | Agrees with the map at a key whose integer counts; the default for a missing key. |
| `Dict.PyccDict.Has` | runtime/PyCCRuntime.c:804-804 | Exactly the keys of the map. |
| `Dict.PyccDict.Del` | runtime/PyCCRuntime.c:805-809 | Removes the key from the map and unlinks its entry, or reports -1 and changes nothing. |
| `Dict.PyccDict.Keys` | runtime/PyCCRuntime.c:811-815 | Each key once, filling an array of length `len`. |
| `Dict.PyccDict.Update` | runtime/PyCCRuntime.c:826-829 | For distinct dictionaries the map becomes the old one overridden by the source's; the source does not change. |
| `Dict.PyccDict.Copy` | runtime/PyCCRuntime.c:821-825 | A dictionary of its own with the same map. |
| `Dict.PyccDict.Clear` | runtime/PyCCRuntime.c:830-834 | The empty map. |
| `Dict.PyccDict.KeyListIs` | runtime/PyCCRuntime.c:811-815 | The walk over the first chains meets each key with a smaller hash exactly once. |
| `Dict.HashIs` | runtime/PyCCRuntime.c:789-789 | The bucket is the number 5381 followed by the characters as digits to the base 33, modulo 256; the wrapping of the 32-bit loop does not show. |
| `Dict.GoodRemove` | runtime/PyCCRuntime.c:805-809 | Bypassing an entry keeps the chain linked, its keys distinct and in their bucket. |
| `Checksums.ComputeCrc32` | runtime/PyCCRuntime.c:615-622 | The branch-free loop computes the checksum of the rows below. |
| `CrcRemainder.CrcIff` | runtime/PyCCRuntime.c:615-622 | The checksum of a message is the one word whose complement is the remainder of the message, raised by 32 and with its first 32 bits turned round, by the polynomial with the exponents 32, 26, 23, 22, 16, 12, 11, 10, 8, 7, 5, 4, 2, 1, 0, as section 8 of RFC 1952 asks. |
| `CrcRemainder.OneRemainder` | runtime/PyCCRuntime.c:615-622 | Quotient and remainder of that division are unique. |
| `CrcRemainder.StepIs` | runtime/PyCCRuntime.c:619-619 | A step of the register multiplies by x and takes the polynomial away where the degree would be 32. |
| `PublishedValues.CheckValue` | runtime/PyCCRuntime.c:615-622 | The published check value: the bytes of `123456789` have the checksum 0xCBF43926. |
| `Checksums.FeedIsSerial` | runtime/PyCCRuntime.c:615-622 | The byte loop is the bit-serial register over the message's bits. |
| `Checksums.BurstDetected` | runtime/PyCCRuntime.c:615-622 | Messages that differ only within 32 consecutive bits, starting at any bit, have equal checksums if and only if they are equal. |
| `Checksums.FourBytesDetected` | runtime/PyCCRuntime.c:615-622 | So every burst within four consecutive bytes is detected. |
| `Checksums.DifferenceOnly` | runtime/PyCCRuntime.c:615-622 | The difference of two checksums depends only on the difference of the messages. |
| `Checksums.ComputeFnv1a` | runtime/PyCCRuntime.c:623-627 | The loop computes 64-bit FNV-1a. |
| `PublishedValues.FnvValue` | runtime/PyCCRuntime.c:623-627 | The published value of the bytes of `foobar`, and the offset basis for no bytes. |
| `Checksums.OneByteSeparated` | runtime/PyCCRuntime.c:623-627 | Messages that differ in at most one byte have equal hashes if and only if they are equal. |
| `Base64.Encode` | runtime/PyCCRuntime.c:669-679 | Fills exactly `4 * ceil(n / 3)` characters, with the encoding of section 4 of RFC 4648. |
| `PublishedValues.Base64Values` | runtime/PyCCRuntime.c:668-679 | The published examples of section 10 of RFC 4648. |
| `PublishedValues.Base64Last` | runtime/PyCCRuntime.c:668-679 | The last two characters of the alphabet are `+` and `/`. |
| `Base64.Decode` | runtime/PyCCRuntime.c:680-694 | Fills `3 * len / 4` bytes from the groups of four characters. |
| `Base64.DecodeEncode` | runtime/PyCCRuntime.c:668-694 | Decoding an encoding gives the bytes followed by exactly what the padding is read as. |
| `Base64.DecodeEncodeExact` | runtime/PyCCRuntime.c:668-694 | The bytes are always a prefix, and all of the result if and only if their number is a multiple of 3. |
| `Base64.EncodedInjective` | runtime/PyCCRuntime.c:669-679 | No two byte strings of the same length have the same encoding. |
| `Base64.EncodeDecode` | runtime/PyCCRuntime.c:668-694 | Encoding a decoded text of the alphabet, without padding, gives the text. |
| `Replace.StrReplace` | runtime/PyCCRuntime.c:707-714 | Every write is within the buffer of `slen * max(nlen, olen) + 1024` characters, and the text it ends with is the left-to-right scan's. |
| `Replace.ScanTo` | runtime/PyCCRuntime.c:712-713 | Jumping to the next occurrence and copying what is before it is what the scan does character by character. |
| `Replace.ReplacedIs` | runtime/PyCCRuntime.c:707-714 | A text that is cut at the occurrences a search from the left finds one behind the other is turned into the same pieces with the new text between them. |
| `Replace.Cut` | runtime/PyCCRuntime.c:707-714 | Every text can be cut so. |
| `Replace.ReplacedAbsent` | runtime/PyCCRuntime.c:707-714 | A text the pattern does not occur in stays as it is. |
| `Replace.ReplacedBound` | runtime/PyCCRuntime.c:710-710 | The bound, without the slack, for every text and non-empty pattern. |
| `Gcd.Gcd` | runtime/PyCCRuntime.c:856-856 | The loop computes the greatest common divisor, without overflow on all but the pairs of the next row. |
| `Gcd.FaultsIff` | runtime/PyCCRuntime.c:856-856 | Exactly on those pairs, the loop meets a remainder the processor cannot take, or ends with a value whose sign cannot change. |
| `Gcd.GcdIs` | runtime/PyCCRuntime.c:856-856 | The value divides both, and every common divisor divides it. |
| `Gcd.LcmIs` | runtime/PyCCRuntime.c:857-857 | The value is a common multiple, and divides every common multiple. |
| `Encoders.EncodeForNasm` | src/PyCCIR.py:148-163 | The loop over characters and its buffer compute the NASM form. |
| `Encoders.NasmReadable` | src/PyCCIR.py:148-163 | Text of the characters from the space to the tilde without double quotes is written as it is, as one quoted run before the final 0. |
| `Encoders.NasmNumber` | src/PyCCIR.py:148-163 | Any other character is written as its number. |
| `Encoders.OperandsBack` | src/PyCCIR.py:148-163 | Read as a list of quoted runs and decimal numbers, the form is the string's codes and a final 0, for every string. |
| `Encoders.NasmBack` | src/PyCCIR.py:148-163 | As data, where `db` keeps one byte of a number, it is the string and a final 0 if and only if all codes are below 256. |
| `Encoders.EncodeForGas` | src/PyCCIR.py:780-796 | The loop computes the GAS form. |
| `Encoders.GasReadable` | src/PyCCIR.py:780-796 | Such text without backslashes is written as it is. |
| `Encoders.GasBack` | src/PyCCIR.py:780-796 | Read with its escapes and octal numbers of at most three digits, the form is the string if and only if all codes are below 256. |
| `Encoders.FormsAgree` | src/PyCCIR.py:780-796 | The two forms stand for the same data but for the final 0. |
| `Encoders.FormsInjective` | src/PyCCIR.py:148-163 | No two strings have the same form. |

## Left out

- Typing: the compiler does not check it; outside it the claims fail (`TypingNeeded.BoolSumDiffers`). It asks for no `+`, `-`,
  `<<` on two `bool`s, no `-` or `~` on one, no `int` in the second arm of a ternary whose first arm is `bool`, and names that
  keep the type they are first given; no call that `_call` handles before the program's functions (`Builtins.Handled`, by name
  and number of arguments) and no read of a name that is never a variable (`Builtins.Special`).
- Source semantics: what the compiler decides is taken as the meaning of the operators: wrapping 64-bit integers, truncating
  `//` and `%`, shift counts modulo 64, strict `and`, `or`, ternary and compare chains. Integer literals are taken modulo 2^64.
- Loop `else`: dropped by the compiler, so the modelled loops have none; loops over anything but `range` are left out.
- Floats, strings, lists, dictionaries, tuples and builtin calls in compiled code; tuple targets; `try`, `with`, classes,
  lambdas, closures, globals, generators and `async`: compiled as stubs or approximations whose meaning the code does not fix.
- Functions are compiled where they stand in the original; the model takes the definitions before the top-level statements.
- Calls of builtins, except those that come to a constant; a function as a value, for which the model has no answer.
- Names that start with `__for_idx_`: `Typing` asks for none (`Names.NamesApart`). A program that uses such a name itself can
  change or read a loop's index (`Names.NamesCollide`), since the original keeps both in one table.
- Mutual recursion: one of two such functions is defined later than its call, which is then no call
  (`TypingNeeded.LaterIsNotCalled`).
- Divergence.SameResults: is about one body and answered calls; whole programs are in `WholeProgram.SameAnswers`.
- Divergence.SameEndless: is about one body and the IR; the machine is in `EndlessPrograms.CompiledForever`.
- EndlessPrograms.CompiledForever: is about a loop without an end, with the calls in it answered; for recursion without an end the
  machine's unbounded stack would be meaningless, and only the IR is covered (`WholeProgram.NoAnswers`).
- Calls with more arguments than there are argument registers: a call with more has no answer in the model.
- Memory is a map from addresses to 64-bit cells, addresses are unbounded integers, and only the stack is modelled; the
  encodings of offsets and immediates, the Darwin underscore and the per-function prefixes of labels are left out.
- AArch64, RISC-V and GAS backends, floating-point and string instructions, and the module's data sections.
- X86Backend.Emit: is about one function; the module's header and its loop over the functions are left out.
- PyParser.Parser.ParseCallAttr: keyword and star arguments and slices are `None`.
- PyParser.Parser.ParsePrimary: floats, f-strings, lambdas and dictionary displays are `None`.
- PyParser.Parser.ParseStmt: `class`, `import`, `try`, `with`, `async`, decorators and the other statements are `None`.
- PyParser.Parser.ParseExprStmt: annotated assignments are `None`.
- PyParser.Parser.ParseParams: annotations, defaults and starred parameters are `None`, and so is a result annotation.
- PyParser.Parser.ParseForRest: several loop variables are `None`. The name of a builtin as a loop variable, a parameter or an
  attribute behind a space is an error in the original and taken here, where builtin names are ordinary ones; the texts of
  `LineRoundTrip` have none there.
- PyParser.Parser.ParseInfix: one method with a level stands for the methods of the binary levels, which differ only in their
  operators.
- LineScanner.TokenizeLine: letters and digits are the ASCII ones; the values of float and f-string tokens are not kept.
- `LineRoundTrip` writes one statement to a line and each body on lines of its own; the other forms are in `StmtForms`, on tokens.
- `WholeCompiler`: the definitions come first in the text, as they do in the model's programs.
- `TripleQuotes`: literals with a prefix (`f`, `r`, `b`) are scanned by other rules.
- Dictionaries: keys and values have no NUL; freeing is left out; `Update` asks for distinct dictionaries, because the original
  reads freed memory otherwise. An integer that was never set is arbitrary, and `GetInt` promises nothing about it.
- Base64: `Decode` asks for a length of 0 or 3 modulo 4, because the original reads behind its input otherwise.
- `Replace`: the size computation is on unbounded integers.
- Lists, `split`, `sort`, trigonometry, files, processes, sockets, threads, SHA-256 and the other wrappers of the runtime: library
  calls or easy members; the padded last block of SHA-256 is never compressed, so no standard equality holds.
- Module tokens, constant folding through `importlib`, the LLVM path (`src/Compiler.py`, `src/NodeGen.py`) and the linker driver.
