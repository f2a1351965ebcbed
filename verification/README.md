# Pudl in Dafny

A model of the Pudl compiler, from source text to the flow graph it emits, with proofs of what each
stage promises. Pudl is a small language of `int`, `float` and `bool` functions with `if`, `while`,
`do`-`while`, blocks, early `return`, short-circuit `&&` and `||`, and recursive calls.

## How the files fit together

| part | files | what is there |
|---|---|---|
| trees and values | `Ast`, `Values`, `Wrappers` | the syntax tree with its computed types; 32-bit wrap-around integers; floats as an uninterpreted type |
| meaning | `Source`, `Unfolding`, `Executions`, `Equivalences`, `Meanings` | an interpreter of trees, indexed by fuel; what the static rules say about it; laws of statements and loops; what operators, literals and conversions mean by their spelling |
| target | `Ir` | basic blocks over typed registers, and a machine that runs them one instruction at a time, with a call stack and cells; each frame keeps the list of blocks it has jumped to, which no instruction reads |
| translation | `Lowering`, `Codegen` | the translation as functions on the generator's state, and the visitor as classes (`IRBuilder`, `ScopeStack`, `Codegen`) proved to do exactly that |
| shape of the code | `Shape`, `Visits`, `Stages`, `FlowGraph`, `ScopeLevels`, `Scoping` | appending only to the insert block, sealed blocks, well-formed flow graphs, the scope stack |
| acceptance | `Acceptance`, `Duplicates`, `Disagreements` | when code generation reports no error, when it reads names as the parser does, and programs on which the two disagree |
| simulation | `Matching`, `Operators`, `ShortCircuit`, `Statements`, `Calls`, `Simulation`, `Correctness`, `Programs`, `Counterexamples` | the machine follows the interpreter, and the converses |
| initialisation | `Paths`, `Declarations`, `Initialised`, `Offences`, `Reaching`, `Endings` | on every path through the flow graph uses come after definitions, exactly when a rule on trees is kept; which blocks paths reach; where runs can end |
| types | `Typing`, `TypePreservation`, `WellTyped`, `Soundness`, `Safety`, `SafePrograms` | typed trees give typed code, exactly when comparisons are not mixed; typed and initialised code never goes wrong |
| parser | `Tokens`, `Parsing`, `Parser` | the parser as functions on token sequences, and as a class over the scanner proved to do exactly that |
| grammar | `Grammar`, `Completeness`, `CompleteStatements`, `CompleteFiles`, `ParserSoundness`, `SoundStatements`, `SoundFiles`, `Rejections`, `Silence` | derivations, what they yield and denote; the parser accepts exactly the grammar, is silent exactly where every list is closed, and sets its error flag exactly where it should |
| round trip | `Printing`, `RoundTrip`, `Image`, `Written` | printing with minimal parentheses; parsing undoes it; which programs can be parsed at all: those that are typed and can be written down |
| scanner | `Lexing`, `LexerLaws`, `NextTokens`, `Lexer` | the scanner as functions on a text, true positions, the longest token on any text, and the class with its pushback slot |
| storage | `Arena` | the bump allocator, on values and as a class |
| whole compiler | `SourceText`, `EndToEnd` | from text to machine in one statement |

The visitor, the parser, the scanner and the arena are written in the form they have in the source: classes
whose methods change fields. Each method's postcondition equates its new state with a function of its old
one; the laws are proved about those functions. That the methods terminate, never pop an empty stack, never
dereference a missing node, never append after a terminator and never push back into a full slot are
obligations of their verification, stated as preconditions of the helpers (`Codegen.Codegen.Pop`,
`Codegen.IRBuilder.Append`, `Lexer.Lexer.Unlex`).

## Where the code decides against its documentation

- int `/` is an unsigned division (`src/Parser/Codegen.h:628`) although comparisons are signed. The interpreter
  follows the code; `Values.DivisionLaw` says what the quotient is, and `Values.UnsignedDivisionIsSignedExactlyWhen`
  when the two divisions agree.
- A call statement emits nothing (`src/Parser/Codegen.h:1092-1094`). The main theorems exclude call statements;
  `Programs.CallStatementsAreDropped` says what happens with them, for every program that keeps the other rules.
- A `True` converted to a number becomes -1 (`src/Parser/Codegen.h:151-160`): arguments and returned values are
  not checked by the parser, and the conversion sign-extends. The interpreter follows the code.
- The comment at `src/Parser/Codegen.h:929-941` calls the trailing `unreachable` dead code. It is reached exactly
  when an execution falls off the end of a body (`Correctness.UnreachableExactlyWhenFallingOff`), for example in
  `Counterexamples.UnreachableIsReached`.
- A bare declaration as a branch binds its name for the code that follows (`src/Parser/Codegen.h:549-567`).
  `Counterexamples.BareDeclarationReadsUndefined` shows what comes of it when the name is then used. The theorems
  about runs ask for exactly the rule that excludes this, `Declarations.AssuredFunction`: a variable is declared on
  every path to its uses, in the sense of `Offences.InitialisedExactlyWhenAssured`. A body without bare declarations
  as branches always keeps it (`Offences.WellScopedFunctionIsAssured`).
- What the parser accepts, code generation may still reject: the parser has one flat scope per function, so a name
  used after its block passes it (`src/Parser/Codegen.h:953-961`, `Disagreements.OutOfBlockIsRejected`), and it does
  not count arguments (`src/Parser/Parser.cpp:715-717`, `Disagreements.WrongCountIsRejected`).
  `Acceptance.CodeGenerationSucceedsExactlyWhen` is the exact rule.
- `==` and `!=` accept a bool with an int (`src/Parser/Parser.cpp:487-509`). The emitted comparison is ill typed, as in
  `Disagreements.MixedIsIllTyped`; `WellTyped.TypesArePreservedExactlyWhen` makes that an equivalence.
- An unsuppressed mismatch prints a message without setting the error flag (`src/Parser/Parser.cpp:28-38`). So a list of
  parameters or arguments that is not closed is reported and the program compiled all the same
  (`src/Parser/Parser.cpp:137-160`, `src/Parser/Parser.cpp:762-767`); after an argument the token in the place of the
  closing parenthesis is dropped. `Grammar` has these productions, `SourceText.MessageWithoutError` an example, and
  `SourceText.TextIsParsedExactly` says exactly which texts are accepted so. The theorems about the whole compiler hold
  for them. A function that cannot be read may leave no error either: the root is then an empty one, for which no code
  is emitted (`SourceText.NothingWithoutError`); `Silence.SilentExactlyWhenStuck` lists all ways this can happen.
- The grammar at `LANGUAGE.md:130-161` has one prefix operator before a factor, the code lets them nest
  (`src/Parser/Parser.cpp:617`); semicolons after simple statements are optional in the code; binary operators
  associate to the right in both. `Grammar` states the grammar of the code.
- `#` drops the character after it unseen (`src/Lexer/Lexer.cpp:16-23`), so a `#` directly before a newline takes the
  next line with it: `LexerLaws.HashBeforeNewline`, and exactly when: `LexerLaws.CommentIsSkippedExactlyWhen`. A comment
  that the end of the file ends counts a line all the same (`LexerLaws.UnendedComment`).
- Of two parameters or functions with one name the parser uses the first, code generation the last
  (`src/Parser/Parser.cpp:101-127`, `src/Parser/Codegen.h:884-917`). `func f(int x, float x) : int return x` faults on every
  run (`Disagreements.SecondParameterIsRead`), and two functions of one name can make ill-typed code
  (`Disagreements.SecondFunctionIsCalled`). When it makes no difference: `Duplicates.ParametersReadAsStoredExactlyWhen`
  and `Duplicates.CalleesAgreeExactlyWhen`, which are the conditions the theorems ask for.

## Model

| member | source | states |
|---|---|---|
| `EndToEnd.CompilerIsCorrect` | src/Parser/Codegen.h:460-1146 | For every source text that the scanner and the parser turn into a program without an error, where function names are distinct, first and last parameters of one name have one type, and a rule on trees holds (names used in the blocks that declare them and declared on every path to their uses, calls with the right number of arguments and not as statements, no bool compared with an int): the emitted code is well typed; for every fuel the machine, called with arguments of the declared types, reaches the interpreter's status and output, still running after at least as many steps as the fuel when the interpreter times out; and at no step of the run does it fault but by dividing by zero |
| `EndToEnd.CompiledStopsAreExplained` | src/Parser/Codegen.h:460-1146 | The converse, for the same texts: however the run stops, the interpreter stops in the same way with the same output, with a value of the declared type, by falling off the end, or by dividing by zero |
| `EndToEnd.ParsedIsTyped` | src/Parser/Parser.cpp:329-640 | Every program parsed without an error, with distinct function names and one type for the first and the last parameter of a name, is well typed in the sense of the type rules stated for trees: each name and call carries its declared type and operands fit their operators |
| `Written.AcceptedExactlyWhenTyped` | src/Parser/Parser.cpp:329-640 | For every program with distinct function names and one type for the first and the last parameter of a name: some tokens are parsed to it without an error if and only if it keeps the type rules for trees (operands of `+`, `*` and `<` numbers of either type, an assigned value a bool exactly if the variable is one, conditions bool) and can be written down (names are words declared before use, once in a function; literals exist; no `else` is taken by another `if`) |
| `Written.PrintableExactlyWhenTyped` | src/Parser/Parser.cpp:541-606 | For an expression, where names and functions are in the tables with their types: the checks of the parser pass if and only if the type rules hold and it can be written down; so a mixed sum such as `1 + 2.5` is accepted |
| `Written.TypedStmtIsPrintable` | src/Parser/Parser.cpp:329-408 | A statement that keeps the type rules, assignments included, and can be written down passes the checks of the parser |
| `SourceText.TextIsParsedExactly` | src/Parser/Parser.cpp:43-80 | For every text: scanning and parsing it yields the program `p` without an error if and only if the scanned tokens are the yield of a derivation in the grammar, unclosed lists included, that denotes `p`; and with no message if and only if in such a derivation everything is closed |
| `SourceText.ReadingUndoesWriting` | src/Parser/Parser.cpp:164-770 | Every printable program, rendered with minimal parentheses and written out as text, is scanned and parsed back to itself with no message |
| `SourceText.MessageWithoutError` | src/Parser/Parser.cpp:137-160 | A concrete parameter list that is not closed is accepted with a message that does not count as an error: its program comes back, and no derivation in which everything is closed yields the tokens |
| `SourceText.NothingWithoutError` | src/Parser/Parser.cpp:57-61 | A concrete function that cannot be read: the parser reports it without an error and returns the empty root, not a program |
| `SourceText.ScannedIsLexed` | src/Lexer/Lexer.cpp:84-243 | All tokens scanned from any text have lexemes of their kind |
| `Silence.ErrorExactlyWhen` | src/Parser/Parser.cpp:43-770 | For every sequence of scanned tokens: the error flag is set if and only if the tokens are not those of a derivation that denotes a program, and do not get stuck; where a parse gets stuck is described on the tokens alone: no expression or statement starts, a parenthesis is not closed, or a name, `=`, `while`, a colon or a type is missing, after a readable beginning |
| `Silence.SilentExactlyWhenStuck` | src/Parser/Parser.cpp:28-38 | For every sequence of scanned tokens: the parser gives up without an error if and only if the tokens get stuck in one of these ways, the messages that do not count as errors and the failures that print none |
| `Rejections.ErrorExactlyWhenMeaningless` | src/Parser/Parser.cpp:43-80 | On the tokens of any derivation the parser reports an error if and only if the derivation denotes no program: a condition that is not bool, a name not declared or declared twice, an unknown function, operands or an assigned value of the wrong type, a literal out of range |
| `Rejections.FailLevel` | src/Parser/Parser.cpp:424-606 | An expression derivation without a meaning is an error at each of the operator levels |
| `Rejections.FailStmt` | src/Parser/Parser.cpp:247-305 | The same for statements; a condition that is not bool is an error in `if`, `while` and `do` |
| `Correctness.MachineFollowsInterpreter` | src/Parser/Codegen.h:460-1146 | For every program whose names resolve in the scopes of their blocks, with distinct function names, variables declared on every path to their uses, calls with the right number of arguments, and no call statement: for every function, arguments and fuel there is a number of machine steps after which status and output are those of the interpreter: return value, falling off the end, division by zero, ill-typed operation, or still running with at least as many steps taken as fuel spent |
| `Correctness.EveryStopIsExplained` | src/Parser/Codegen.h:460-1146 | Conversely, for the same programs (distinct function names, variables declared on every path to their uses, no call statement): whenever the machine stops the interpreter stops in the same way, with the same output |
| `Correctness.SameResults` | src/Parser/Codegen.h:863-946 | For the same programs (distinct function names, variables declared on every path to their uses, no call statement): the machine finishes with value `v` and output `out` if and only if the interpreter returns them at some fuel |
| `Correctness.UnreachableExactlyWhenFallingOff` | src/Parser/Codegen.h:921-943 | For the same programs (distinct function names, variables declared on every path to their uses, no call statement): a run reaches the trailing `unreachable` with output `out` if and only if the source execution falls off the end of a function body with that output |
| `Correctness.SameDivergence` | src/Parser/Codegen.h:1023-1089 | For the same programs (distinct function names, variables declared on every path to their uses, no call statement): the machine runs for ever if and only if the interpreter times out at every fuel |
| `Correctness.NeverUndefined` | src/Parser/Codegen.h:474-489 | For the same programs (distinct function names, variables declared on every path to their uses, no call statement): no run reads a register or a cell before it is written, or leaves the code: the only faults are division by zero and an operation on values of the wrong type |
| `Programs.UnreachableNeverReached` | src/Parser/Codegen.h:921-943 | If control can get past none of the bodies of such a program, no run reaches `unreachable` |
| `Endings.StopsAtEndOfFalling` | src/Parser/Codegen.h:921-943 | A run that stops at an `unreachable` is in the last block of a function whose body control can get past, and the block belongs to that function; so no run stops there in a function whose body always returns, whatever the other functions do |
| `Offences.EndIsReachedExactlyWhenFalling` | src/Parser/Codegen.h:921-943 | Some path through the flow graph, whatever its conditions, leads from the entry to the `unreachable` at the end of a function if and only if control can get past its body, for every function of a program that code generation accepts |
| `Reaching.LiveStmt` | src/Parser/Codegen.h:948-1146 | A statement visit extends marks on blocks that are closed under the jumps emitted: where control can get past the statement its end is marked, and where it cannot the open end is not |
| `Reaching.FunctionMarked` | src/Parser/Codegen.h:921-943 | For every function that is visited without an error there are marks on its blocks, closed under all jumps and marking the entry, in which the end of a body that control cannot get past is not marked |
| `Executions.NeverNormal` | src/Parser/Codegen.h:921-943 | A statement that control cannot get past, by a rule on trees, never completes normally, whatever the fuel |
| `Executions.SureHasValue` | src/Parser/Codegen.h:534-581 | Whenever a statement completes normally, control can get past it by the rule, the variables from before are all there, and every name the declaration rule calls sure after it has a value |
| `Programs.ExecNeverFallsOff` | src/Parser/Codegen.h:921-943 | In a program none of whose bodies control can get past no execution, nested calls included, falls off the end of a function |
| `Programs.EraseProgramLowersAlike` | src/Parser/Codegen.h:1092-1094 | Removing every call statement from a program changes nothing in the emitted code |
| `Programs.CallStatementsAreDropped` | src/Parser/Codegen.h:1092-1094 | The machine runs any program that keeps the same rules but for call statements as the interpreter runs it with its call statements removed |
| `Counterexamples.DroppedCallChangesOutput` | src/Parser/Codegen.h:1092-1094 | A concrete program that code generation accepts: its call statement prints 1 in the source, and the machine finishes with the same value and no output, so the exclusion of call statements is needed |
| `Counterexamples.UnreachableIsReached` | src/Parser/Codegen.h:921-943 | A concrete program that code generation accepts and whose run prints and then stops at the trailing `unreachable` |
| `Counterexamples.BareDeclarationReadsUndefined` | src/Parser/Codegen.h:549-567 | A concrete program with a bare declaration as the branch of an `if`: code generation accepts it and the run reads a cell that was never allocated, so the condition that variables are declared on every path is needed |
| `Counterexamples.TheParserAcceptsThem` | src/Parser/Parser.cpp:43-80 | Each of the three concrete programs is the silent result of scanning and parsing a text |
| `Acceptance.CodeGenerationSucceedsExactlyWhen` | src/Parser/Codegen.h:460-464 | For every program: code generation reports no error if and only if the program keeps a rule on trees, in which each body sees its parameters, the names declared before in enclosing blocks, and the functions up to its own with their numbers of parameters; statements after one that ends its block are not looked at |
| `Acceptance.ExprAccepted` | src/Parser/Codegen.h:474-858 | The same for an expression, from any state of the generator in which these names resolve and these functions are known: every variable is bound, every call fits, and a minus sign stands on an int or a float |
| `Acceptance.StmtAccepted` | src/Parser/Codegen.h:948-1146 | The same for a statement, with what its visit binds and whether it ends its block |
| `Acceptance.FunctionAccepted` | src/Parser/Codegen.h:863-946 | The same for a function, which can call itself |
| `Disagreements.OutOfBlockIsRejected` | src/Parser/Codegen.h:953-961 | A concrete program, accepted by the parser with its flat scope, uses a name after the block that declares it: code generation reports an error |
| `Disagreements.WrongCountIsRejected` | src/Parser/Codegen.h:834-840 | A concrete program, accepted by the parser, calls a function without its argument: code generation reports an error |
| `Disagreements.MixedIsIllTyped` | src/Parser/Parser.cpp:487-509 | A concrete program compares a bool with an int: code generation accepts it and the emitted code is ill typed |
| `Disagreements.SecondParameterIsRead` | src/Parser/Codegen.h:909-917 | A concrete program has an int and a float parameter of one name: code generation accepts it, and every run on it stops at an operation on a value of the wrong type |
| `Disagreements.SecondFunctionIsCalled` | src/Parser/Codegen.h:884-917 | A concrete program has two functions of one name and different types: code generation accepts it, and the emitted code is ill typed although no comparison is mixed |
| `Disagreements.TheParserAcceptsThem` | src/Parser/Parser.cpp:43-80 | Each of these five concrete programs is the silent result of scanning and parsing a text |
| `Duplicates.ParametersReadAsStoredExactlyWhen` | src/Parser/Parser.cpp:101-108 | When a body starts, the type the parser has for each parameter name is that of the cell code generation has bound it to, if and only if the first and the last parameter of each name have one type |
| `Duplicates.CalleesAgreeExactlyWhen` | src/Parser/Parser.cpp:126-127 | In every body, every name of a function resolves in code generation to the function whose type the parser took and to the one the whole program means by it, if and only if all function names are distinct |
| `Duplicates.FirstFunctionCounts` | src/Parser/Parser.cpp:126-127 | The parser's table has for each name the type of the first function so called, and no other names |
| `Duplicates.ParsedWithTable` | src/Parser/Parser.cpp:126-127 | Each function of a printable file is checked with exactly the table of the functions before it |
| `Values.UnsignedDivisionIsSignedExactlyWhen` | src/Parser/Codegen.h:628-628 | For all operands with a nonzero divisor: the unsigned quotient that is emitted for int `/` equals the signed quotient if and only if the operands satisfy an explicit test on their signs and magnitudes |
| `Values.MinusSixByTwo` | src/Parser/Codegen.h:628-628 | The emitted division makes -6 / 2 the number 2147483645 |
| `Values.DivisionLaw` | src/Parser/Codegen.h:628-628 | For all operands with a nonzero divisor, both read as numbers modulo 2^32: the divisor times the quotient is at most the dividend, and one more time the divisor exceeds it |
| `Meanings.IntArithmeticMeans` | src/Parser/Codegen.h:621-629 | The operators spelled `+`, `-` and `*` on ints give the result modulo 2^32; `/` divides the readings modulo 2^32, and by zero is an error |
| `Meanings.IntRelationMeans` | src/Parser/Codegen.h:654-666 | The comparisons by their spelling, on ints: of signed numbers |
| `Meanings.FloatArithmeticMeans` | src/Parser/AST/AST.cpp:3-17 | With a float on either side the operators spelled `+`, `-`, `*` and `/` are those on floats, the other operand converted first |
| `Meanings.FloatRelationMeans` | src/Parser/AST/AST.cpp:3-17 | The same for the comparisons by their spelling |
| `Meanings.BoolConversions` | src/Parser/Codegen.h:151-160 | Converting an int to bool keeps it modulo 2, a bool to int gives the -1 or 0 that converts back to it, an int survives the way to bool and back if and only if it is 0 or -1, and a bool becomes the float its int becomes |
| `Meanings.BoolsPrintAsZeroOrOne` | src/Parser/Codegen.h:1099-1132 | `print` shows a bool as the 0 or 1 that converts to it, which differs from the int it converts to exactly if it is true |
| `Meanings.PrefixOperators` | src/Parser/Codegen.h:790-815 | A minus on an int gives the negative modulo 2^32, and twice the int itself; `!` negates and `+` does nothing |
| `Equivalences.ExecEnough` | src/Parser/Codegen.h:948-1146 | More fuel changes nothing about an execution that has come to an end, so what a statement does is one result or none |
| `Equivalences.WhileUnrolls` | src/Parser/Codegen.h:1023-1062 | In every state a `while` loop with a block as its body comes to the same end as an `if` on its condition around the body and the loop again |
| `Equivalences.DoWhileIsBodyThenWhile` | src/Parser/Codegen.h:1064-1089 | A `do`-`while` loop with a block as its body comes to the same end as the body followed by the `while` loop |
| `Equivalences.AndIsNested` | src/Parser/Codegen.h:694-727 | An `if` on `&&` comes to the same end as an `if` within an `if`: the right side matters only where the left one holds |
| `Equivalences.OrIsNested` | src/Parser/Codegen.h:694-727 | An `if` on `||` comes to the same end as an `if` in an `else`: the right side matters only where the left one fails |
| `Equivalences.NotExchanges` | src/Parser/Codegen.h:977-1021 | An `if` on a negated condition is the `if` with its branches exchanged |
| `Simulation.SimExpr` | src/Parser/Codegen.h:474-858 | From any machine state that matches the environment, the code of an expression reaches a state in which its operand holds the value the interpreter computes, with the same output and the caller's cells and registers kept; or it stops in the same way |
| `Simulation.SimStmt` | src/Parser/Codegen.h:534-1146 | The same for a statement: control ends in the insert block with cells matching the new environment, or at a `ret` of the converted value, or stopped in the same way |
| `Simulation.SimLogical` | src/Parser/Codegen.h:694-727 | `&&` and `||`: the code reaches the interpreter's outcome, and on the way the frame jumps to the block of the right side if and only if the left side evaluates to a bool that does not decide, which is when the interpreter evaluates the right side; whether the left or the right side stops, and through any calls they make |
| `Simulation.SimSkip` | src/Parser/Codegen.h:716-726 | From the merge block, with the saved cell still holding the left value, one step leaves that value as the operand with no output and no further jump |
| `Simulation.SimCall` | src/Parser/Codegen.h:821-858 | A call evaluates and converts the arguments in order, runs the callee in a frame of its own and continues with the result in the destination register, the caller's cells unchanged |
| `Simulation.SimArgs` | src/Parser/Codegen.h:835-853 | Arguments are evaluated left to right, each converted to its parameter's type, stopping at the first that stops |
| `Simulation.SimIf` | src/Parser/Codegen.h:977-1021 | `if` with and without `else`, either arm returning early or not |
| `Simulation.SimLoop` | src/Parser/Codegen.h:1023-1062 | A `while` loop from its test block on, by induction on the fuel, across any number of iterations |
| `Simulation.SimDoLoop` | src/Parser/Codegen.h:1064-1089 | A `do`-`while` loop whose body can fall through, across any number of iterations |
| `Simulation.SimBlock` | src/Parser/Codegen.h:948-974 | A block runs its statements in a fresh scope and what they declare is gone afterwards |
| `Simulation.SimSeq` | src/Parser/Codegen.h:962-970 | A sequence, which stops being emitted after a statement that ends its block |
| `Simulation.SimCallee` | src/Parser/Codegen.h:863-946 | A whole function: parameters into cells, body, and return to the caller or fall off the end |
| `Simulation.FallsOff` | src/Parser/Codegen.h:921-943 | The step taken at the end of a body that was left open is onto `unreachable` |
| `Calls.SimParams` | src/Parser/Codegen.h:909-917 | The prologue leaves every parameter's cell holding its argument; of two parameters with one name the last is visible |
| `Operators.SimStrict` | src/Parser/Codegen.h:592-683 | The arithmetic and comparison instructions, after both operands are converted if one is a float, compute what the interpreter's operator does, fault included |
| `Operators.ConvertIsCast` | src/Parser/Codegen.h:151-160 | The cast instruction converts as the interpreter does between each two types, a `True` becoming -1 |
| `ShortCircuit.SimStartShortCircuit` | src/Parser/Codegen.h:694-714 | Three steps save the left value in a fresh cell and branch to the right side's block or past it, depending on the operator and the value |
| `ShortCircuit.SimSaveRight` | src/Parser/Codegen.h:716-726 | The right value replaces the left one in the cell and no other cell changes |
| `FlowGraph.ProgramWellFormed` | src/Parser/Codegen.h:863-946 | If code generation reports no error every block of the program ends in exactly one terminator and has none earlier, is attached to a function, and branches only to blocks of that function; every function's entry is one of its blocks |
| `FlowGraph.FunctionWellFormed` | src/Parser/Codegen.h:893-943 | The same for the blocks one function adds |
| `FlowGraph.FunctionAppends` | src/Parser/Codegen.h:863-946 | Visiting a function, even when it fails, changes no block, register or function that existed before |
| `Visits.ShapeStmt` | src/Parser/Codegen.h:948-1146 | Across a whole statement visit, failing ones included, instructions are only appended, only to the insert block and to blocks created during the visit and never after a terminator; on success every block left behind is attached and ends in a terminator |
| `Visits.ShapeExpr` | src/Parser/Codegen.h:474-858 | The same for an expression visit, which moreover leaves the insert block open, the scopes as they were, and an operand if it succeeded |
| `Visits.ShapeArgs` | src/Parser/Codegen.h:835-853 | The same for an argument list |
| `Declarations.EndsExactly` | src/Parser/Codegen.h:921-943 | After a successful visit the insert block has a terminator if and only if the statement structurally ends in a `return` |
| `ScopeLevels.StmtLevels` | src/Parser/Codegen.h:51-78 | Across every statement visit, failing ones included, the levels of the scope stack keep pairwise disjoint names, outer levels are untouched, the innermost only gains names, and a block restores the stack exactly |
| `ScopeLevels.DeclareGrows` | src/Parser/Codegen.h:62-64 | Declaring a name that no level binds keeps the levels disjoint |
| `Offences.InitialisedExactlyWhenAssured` | src/Parser/Codegen.h:474-581 | For every function of a program that code generation accepts: on every path through the emitted flow graph from the entry, feasible or not and around loops any number of times, every register is written before it is used, every pointer accessed is that of an `alloca` executed before with no write to it since, and every load follows a store to that cell, if and only if every use of a bound name in reachable code is of a name declared on all ways there (a rule on trees, checked without the flow graph) |
| `Initialised.EveryPathIsInitialised` | src/Parser/Codegen.h:474-581 | The if-direction, for a single path |
| `Offences.ReachStmt` | src/Parser/Codegen.h:534-1146 | The only-if direction, statement by statement: where control can get past, a path leads past without writing any register of later code; every name bound but not sure has a path that skips its declaration; and a use that breaks the rule gives a path that uses a cell it has not allocated |
| `Offences.WellScopedFunctionIsAssured` | src/Parser/Codegen.h:549-567 | A function without a bare declaration as a branch, accepted by code generation, keeps the rule |
| `Declarations.ReboundStmt` | src/Parser/Codegen.h:51-78 | Across any statement visit, well scoped or not, every name bound before keeps its cell and every name bound by the visit has a cell of its own made during it |
| `Initialised.FunctionCertified` | src/Parser/Codegen.h:863-946 | For every function that keeps the rule there is a certificate: for each block, facts that hold on each edge into it and cover every use in it, or that no path leads to it |
| `Initialised.InitStmt` | src/Parser/Codegen.h:534-1146 | A statement visit extends the certificate, and where control can get past, the names sure after it are allocated and stored to |
| `Initialised.InitLogical` | src/Parser/Codegen.h:694-727 | The slot of a short-circuit operator is stored to on both ways into the merge block |
| `Initialised.InitWhile` | src/Parser/Codegen.h:1023-1062 | What holds before a `while` holds at its test on every iteration, back edge included |
| `Initialised.InitDoWhile` | src/Parser/Codegen.h:1064-1089 | What the body of a `do`-`while` declares is initialised after the loop, also when the body never gets to the test |
| `Paths.FlowMeans` | src/Parser/Codegen.h:474-581 | The facts computed along instructions are exactly those that hold: written, pointing to a cell allocated by the last write of the register, stored to since |
| `WellTyped.TypesArePreservedExactlyWhen` | src/Parser/Codegen.h:120-160 | For every well-typed program with distinct function names that code generation accepts: the emitted code is well typed (operands of equal type, conditions `i1`, calls and returns of the declared types) if and only if no `==` or `!=` in code that is emitted compares a bool with an int |
| `TypePreservation.TypeExpr` | src/Parser/Codegen.h:474-858 | A visited expression's operand has the machine type of the tree's type |
| `TypePreservation.TypeCall` | src/Parser/Codegen.h:821-858 | A call's arguments have the parameters' types after conversion, and its result the declared type |
| `TypePreservation.TypeStmt` | src/Parser/Codegen.h:534-1146 | A statement's code is well typed, or contains an ill-typed comparison if the tree has one |
| `Soundness.FunctionSound` | src/Parser/Parser.cpp:329-640 | In a well-typed program without comparisons of a bool with an int and without call statements the interpreter called with arguments of the declared types never meets an ill-typed operation and returns a value of the declared type; an unbound name is not excluded here |
| `Soundness.ProgramSound` | src/Parser/Codegen.h:474-858 | If code generation accepts the program as well, the interpreter meets no unbound name either: it returns a value of the declared type, times out, falls off the end or divides by zero |
| `Soundness.WellTypedCodeFaultsOnlyOnDivision` | src/Parser/Codegen.h:592-683 | The emitted code of such a program faults only by dividing by zero and finishes with a value of the function's type |
| `Safety.CodeNeverGoesWrong` | src/Parser/Codegen.h:120-160 | For any code at all: if its blocks are well formed, its instructions keep the type rules, and on every path what is used has been written, allocated and stored to, then a run of any length from any function with arguments of its types faults on a division by zero or not at all, and ends only with a value of the type returned |
| `Safety.StepSafe` | src/Parser/Codegen.h:474-1146 | The invariant behind it is kept by every step: each frame on the stack has registers and cells of their types, no two registers share a cell, what the path behind it has written is there, and each caller can go on with any value of the type its callee returns |
| `Safety.UnmetUseFaults` | src/Parser/Codegen.h:474-581 | Conversely, an instruction that uses a register not written, a cell not allocated or not stored to cannot be performed |
| `SafePrograms.SoundExactlyWhenCareful` | src/Parser/Codegen.h:460-1146 | For a well-typed program that code generation accepts, with distinct function names: the emitted code keeps all these rules if and only if no comparison in code that is emitted mixes a bool with an int and every variable is declared on all paths to its uses |
| `SafePrograms.CarefulNeverGoesWrong` | src/Parser/Codegen.h:460-1146 | So the code of such a program, call statements allowed, never goes wrong but by dividing by zero, shown without the interpreter |
| `Codegen.Generate` | src/Parser/Codegen.h:460-464 | The visitor run on any program yields exactly the code and the success flag of the specified translation, and on success a well-formed flow graph |
| `Codegen.Codegen.VisitProgram` | src/Parser/Codegen.h:460-464 | Functions are visited in order, also after one has failed; the state is that of the specified translation, and failure is never cleared |
| `Codegen.Codegen.VisitFunctionDef` | src/Parser/Codegen.h:863-946 | Refines the translation of a function, `unreachable` included; on success the operand stack is as before |
| `Codegen.Codegen.VisitStmt` | src/Parser/Codegen.h:948-1146 | Refines the translation of a statement; a success leaves the operand stack as it was, and the success flag is never set again once cleared |
| `Codegen.Codegen.VisitExpr` | src/Parser/Codegen.h:474-858 | Refines the translation of an expression: on success exactly one operand is pushed on what was there; on failure the earlier operands are all still there |
| `Codegen.Codegen.Strict` | src/Parser/Codegen.h:592-683 | Arithmetic and comparison operators: two operands popped, converted if one is a float, one pushed |
| `Codegen.Codegen.ShortCircuit` | src/Parser/Codegen.h:694-727 | `&&` and `||`: refines the translation with slot, right-side block and merge block |
| `Codegen.Codegen.VisitUnary` | src/Parser/Codegen.h:790-815 | Unary operators; `+` leaves the operand that is on the stack |
| `Codegen.Codegen.VisitFuncall` | src/Parser/Codegen.h:821-858 | Unknown callee and wrong number of arguments are errors; otherwise arguments are visited in order and the call emitted |
| `Codegen.Codegen.VisitArgs` | src/Parser/Codegen.h:835-853 | The loop over the arguments; stops at the first failure |
| `Codegen.Codegen.VisitAssignment` | src/Parser/Codegen.h:534-581 | Assignment to a bound name stores, to an unbound one allocates first; the value is converted if the types differ |
| `Codegen.Codegen.VisitIoPrint` | src/Parser/Codegen.h:1099-1132 | Prints a float as a double and a bool widened to an int |
| `Codegen.Codegen.VisitReturn` | src/Parser/Codegen.h:1137-1146 | Returns the value converted to the function's type |
| `Codegen.Codegen.VisitBlock` | src/Parser/Codegen.h:948-974 | Pushes a scope, visits the statements, pops it, also after a failure |
| `Codegen.Codegen.VisitStatements` | src/Parser/Codegen.h:962-970 | The loop over a block's statements; stops at a failure and after a terminator |
| `Codegen.Codegen.VisitIf` | src/Parser/Codegen.h:977-1021 | Three blocks; the merge block is branched to only from an arm that is still open |
| `Codegen.Codegen.VisitWhile` | src/Parser/Codegen.h:1023-1062 | Test, body and after blocks, with the back edge only from an open body |
| `Codegen.Codegen.VisitDoWhile` | src/Parser/Codegen.h:1064-1089 | The condition is visited only if the body can fall through |
| `Codegen.Codegen.BindParameters` | src/Parser/Codegen.h:909-917 | A cell for each parameter, bound in the function's scope, in order |
| `Codegen.Codegen.Pop` | src/Parser/Codegen.h:165-169 | Takes the top operand; demands that there is one, which every caller proves |
| `Codegen.Codegen.Cast` | src/Parser/Codegen.h:151-160 | No instruction if the type is right already |
| `Codegen.IRBuilder.Append` | src/Parser/Codegen.h:594-630 | Appends to the insert block; demands that it has no terminator, which every caller proves |
| `Codegen.ScopeStack.Find` | src/Parser/Codegen.h:68-77 | The innermost binding of a name, by searching the levels from the innermost out |
| `Codegen.ScopeStack.DeclareName` | src/Parser/Codegen.h:62-64 | Binds in the innermost level only |
| `SoundFiles.ParserAcceptsExactlyGrammar` | src/Parser/Parser.cpp:43-134 | For every sequence of scanned tokens: the parser returns the program `p` without an error if and only if the tokens, all of them, are the yield of a derivation that denotes `p` in the grammar of LANGUAGE.md with the optional semicolons, prefix operators and unclosed lists the code has; and it prints nothing if and only if in such a derivation every list is closed |
| `CompleteFiles.ParserAcceptsGrammar` | LANGUAGE.md:130-161 | Every derivation that denotes a program is parsed to that program, with every type field equal and no error, and with a message exactly if a list in it is not closed |
| `Meanings.OperatorsGroupByRank` | LANGUAGE.md:60-62 | Three operands with two operators between them are parsed with the operator of the higher documented rank applied first, and of two of equal rank the right one, unless that is an error; a prefix operator belongs to its operand |
| `Completeness.CompleteLevel` | src/Parser/Parser.cpp:424-606 | At each of the six operator levels a derivation of that level followed by a token that cannot continue it is parsed to what it denotes, exactly its tokens are consumed, and a message is printed exactly if a call in it is not closed; operators associate to the right |
| `Completeness.CompleteArgs` | src/Parser/Parser.cpp:746-768 | The arguments of a call are parsed to what they denote up to their closing parenthesis, or to the token that is skipped in its place, or to the end of the file |
| `CompleteFiles.CompleteParams` | src/Parser/Parser.cpp:137-160 | The parameters are parsed to what they denote up to their closing parenthesis or, with a message, up to the colon, past a type without a name if there is one |
| `CompleteStatements.CompleteStmt` | src/Parser/Parser.cpp:164-326 | The same for statements, before any token that the statement does not go on with; an `else` goes to the nearest `if` |
| `CompleteStatements.CompleteSeq` | src/Parser/Parser.cpp:307-326 | The same for the statements of a block |
| `ParserSoundness.SoundLevel` | src/Parser/Parser.cpp:424-606 | What a level parses without an error is the denotation of a derivation of that level whose yield is exactly the tokens consumed, which the next token cannot continue, and a message has been printed exactly if a call in it is not closed |
| `ParserSoundness.SoundUnary` | src/Parser/Parser.cpp:609-640 | The same for prefix operators, which nest |
| `ParserSoundness.SoundCall` | src/Parser/Parser.cpp:703-770 | The same for calls and their argument lists |
| `SoundStatements.SoundStmt` | src/Parser/Parser.cpp:164-326 | The same for statements |
| `SoundStatements.SoundIf` | src/Parser/Parser.cpp:247-269 | The same for `if`, with the dangling `else` resolved to the nearest one |
| `SoundFiles.SoundFunction` | src/Parser/Parser.cpp:84-134 | The same for a function definition, name registered before the body is read |
| `SoundFiles.SoundParams` | src/Parser/Parser.cpp:137-160 | Whatever the parameter loop has consumed when it stands at a colon is the yield of parameters and of one of the three ways they can end |
| `RoundTrip.ParsingUndoesPrinting` | src/Parser/Parser.cpp:164-770 | The tokens rendered from any printable program parse back to exactly it, all types equal, no error and no message |
| `RoundTrip.DeriveLaw` | src/Parser/Parser.cpp:424-665 | The derivation printed for an expression at a level is one of that level, denotes the expression, and has no parenthesis that could be left out |
| `RoundTrip.StmtLaw` | src/Parser/Parser.cpp:164-326 | The derivation printed for a statement is well formed and denotes it |
| `Image.ParsedExactlyWhenPrintable` | src/Parser/Parser.cpp:43-770 | A program is the result of parsing some tokens without an error if and only if it is printable (names in scope with the types of their single declaration, operands fitting, no `else` after an arm that would take it), and then it is the silent result of parsing some |
| `Parser.Parser.Next` | src/Parser/Parser.h:62-62 | Drops the current token and reads one: the remaining tokens lose their head, and at the end nothing changes |
| `Parser.Parser.Peek` | src/Parser/Parser.cpp:190-206 | Reading a token, pushing it back and restoring the current one leaves state and remaining tokens unchanged, also at the end of the file, where the token pushed back equals the mark of an empty slot |
| `Parser.Parser.Is` | src/Parser/Parser.cpp:28-38 | A mismatch that is not suppressed is a message but not an error |
| `Parser.Parser.Parse` | src/Parser/Parser.cpp:43-80 | On every token stream: terminates, and root, flags and tables are those of the specified parser |
| `Parser.Parser.FunctionDefinition` | src/Parser/Parser.cpp:84-134 | Refines the specified parser of a function, on every token stream |
| `Parser.Parser.FunctionArgs` | src/Parser/Parser.cpp:137-160 | The loop over the parameters refines its specification; it gives up with a message and without an error |
| `Parser.Parser.Statement` | src/Parser/Parser.cpp:164-219 | Refines the specified statement parser (when that is an error: `Silence.ErrorExactlyWhen`), look-ahead for calls and optional semicolons included |
| `Parser.Parser.BlockStatement` | src/Parser/Parser.cpp:307-326 | Refines the specified block parser |
| `Parser.Parser.Assignment` | src/Parser/Parser.cpp:329-362 | Refines the specified assignment parser, with its check of bool against other types, which is the type rule in `Written.AcceptedExactlyWhenTyped` |
| `Parser.Parser.Declaration` | src/Parser/Parser.cpp:365-408 | Refines the specified declaration parser; its check is that type rule, and the name is bound when the declaration has been read |
| `Parser.Parser.Expression` | src/Parser/Parser.cpp:411-421 | Refines the specified expression parser |
| `Parser.Parser.Lor` | src/Parser/Parser.cpp:424-456 | Refines level 0 |
| `Parser.Parser.Land` | src/Parser/Parser.cpp:459-484 | Refines level 1 |
| `Parser.Parser.CmpEq` | src/Parser/Parser.cpp:487-509 | Refines level 2, which checks no operand |
| `Parser.Parser.Cmp` | src/Parser/Parser.cpp:512-538 | Refines level 3, whose operands are two numbers of whatever types, as `Written.PrintableExactlyWhenTyped` shows |
| `Parser.Parser.Additive` | src/Parser/Parser.cpp:541-572 | Refines level 4, whose operands are two numbers of whatever types, as `Written.PrintableExactlyWhenTyped` shows |
| `Parser.Parser.Multiplicative` | src/Parser/Parser.cpp:575-606 | Refines level 5, whose operands are two numbers of whatever types, as `Written.PrintableExactlyWhenTyped` shows |
| `Parser.Parser.UnaryExpr` | src/Parser/Parser.cpp:609-640 | Refines level 6 |
| `Parser.Parser.Factor` | src/Parser/Parser.cpp:643-665 | Refines the specified parser of a factor, with the look-ahead that tells a call from a variable |
| `Parser.Parser.Intgr` | src/Parser/Parser.cpp:784-802 | A literal outside the 32-bit range is an error |
| `Meanings.LiteralReadsExactlyWhen` | src/Parser/Parser.cpp:784-802 | A literal is read if and only if it is digits whose value, summed with powers of ten, is below 2^31, and then as that value |
| `Parser.Parser.Funcall` | src/Parser/Parser.cpp:703-718 | Refines the specified call parser |
| `Parser.Parser.FuncallArgs` | src/Parser/Parser.cpp:721-770 | The loop over the arguments refines its specification |
| `Parser.ParseText` | src/Parser/Parser.cpp:43-80 | Scanning and parsing a text with the two classes gives the root and the flags of the specified parser on the specified scanner's tokens |
| `LexerLaws.ScanningUndoesWriting` | src/Lexer/Lexer.cpp:84-243 | Any sequence of proper tokens written with valid blanks (white space and comments with a character before their newline) between them is scanned to exactly those tokens, each with the true line and column of its first character |
| `LexerLaws.HashBeforeNewline` | src/Lexer/Lexer.cpp:16-23 | A concrete text in which `#` directly before a newline swallows the following line as well and leaves the line count one short |
| `LexerLaws.CommentIsSkippedExactlyWhen` | src/Lexer/Lexer.cpp:16-23 | A comment `#` then `b` to the end of its line is skipped to the true position after it if and only if `b` is not empty or the newline is the last character of the text |
| `LexerLaws.UnendedComment` | src/Lexer/Lexer.cpp:16-23 | A comment that the end of the text ends is skipped to the end with one line counted too many: the position is never the true one |
| `LexerLaws.LexedIsProper` | src/Lexer/Lexer.cpp:84-243 | Every scanned token is one the grammar's theorems allow, an error token, or the end of the file |
| `NextTokens.NextToken` | src/Lexer/Lexer.cpp:84-243 | For every text and cursor: the scanner goes over white space and comments, all there are, and then reads the longest proper token written there, of which there is only one, and stops right after it; it is an error, for one character, if and only if no proper token is written there; and the end of the file if and only if nothing is left |
| `NextTokens.OneStart` | src/Lexer/Lexer.cpp:91-112 | The position after the white space and comments at a cursor is the only one |
| `LexerLaws.ScanToken` | src/Lexer/Lexer.cpp:25-82 | A proper token that stands at a position and is not run on into is scanned whole, with its true position |
| `LexerLaws.SkipPiece` | src/Lexer/Lexer.cpp:7-23 | Skipping one blank or comment moves to the true position after it |
| `Lexer.Lexer.Lex` | src/Lexer/Lexer.cpp:84-243 | The token pushed back if there is one, and otherwise the specified token at the cursor with the cursor moved past it, line and column included; what that token is, on every text, says `NextTokens.NextToken` |
| `Lexer.Lexer.Unlex` | src/Lexer/Lexer.cpp:245-247 | The pushed-back token is the next one read; the slot must be empty |
| `Lexer.Lexer.SkipComment` | src/Lexer/Lexer.cpp:16-23 | Refines the specified comment rule |
| `Lexer.Lexer.Whitespace` | src/Lexer/Lexer.cpp:7-14 | A newline starts a new line at column 1 |
| `Lexer.Lexer.Identifier` | src/Lexer/Lexer.cpp:45-59 | Reads the longest run of letters and digits and un-reads the character after it |
| `Lexer.Lexer.IdentifierOrKeyword` | src/Lexer/Lexer.cpp:25-43 | Keywords are told from names |
| `Lexer.Lexer.Number` | src/Lexer/Lexer.cpp:61-82 | Digits and dots; a dot anywhere makes the token a float |
| `Arena.ConstructIsSafe` | src/Parser/AST/Arena.h:60-84 | One `construct` makes one object of the requested size and alignment and keeps every object aligned, inside one block and disjoint from all others, `current + remaining` the end of the newest block, and earlier objects untouched; the newest block is used if and only if it has an aligned address with room for the object, a block being added otherwise; less than the alignment is skipped before the object, and the free space starts right after it |
| `Arena.AllConstructedSafe` | src/Parser/AST/Arena.h:60-84 | The same over any sequence of requests, whatever their sizes and power-of-two alignments: the new objects are those requested, in order |
| `Arena.RetryFits` | src/Parser/AST/Arena.h:66-71 | The attempt after `addBlock` always succeeds |
| `Arena.RegisteredSublist` | src/Parser/AST/Arena.h:78-81 | The registered objects are exactly those whose destructor is not trivial |
| `Arena.ReversedAt` | src/Parser/AST/Arena.h:53-57 | Position `i` of the order of destruction is the `i`-th from the end |
| `Arena.Arena.ConstructObject` | src/Parser/AST/Arena.h:60-84 | The method does what the specified `construct` does, stays safe, and returns an aligned address |
| `Arena.Arena.Destroy` | src/Parser/AST/Arena.h:53-57 | The loop visits the registered objects in exactly the reverse order of construction |

## Left out

- Parsing.ReadInt: `stoi` is modelled on strings of digits only, which is all the scanner produces for an integer token.
- LLVM itself: optimisation passes, object emission, target setup, module printing. The builder's folding of constant operands is not modelled either; every operation is emitted.
- IEEE float arithmetic and `stof`: operations, comparisons and conversions are fields of a record of functions, any functions, and the reader of float literals is a parameter.
- `printf` itself: a print is an event with its value; the format strings and the address computation for them are not modelled.
- Signed order comparisons of bools: the machine treats them as ill-typed; the parser rejects them.
- Source.Eval: a call with the wrong number of arguments stops the interpreter as unbound; code generation rejects such programs, so no theorem about accepted programs meets it. In a `while` each iteration starts with the variables from before the loop, as in a `do`-`while`.
- Names of blocks and registers in the emitted code, and the order of blocks in a function: labels are numbers in order of creation.
- `OperatorKind` is two types here, one for binary and one for unary operators.
- The texts of messages and the columns of error tokens; only whether a message was printed and whether it counts as an error.
- Non-ASCII bytes in the source text.
- Arena: the system's allocator is a parameter that grants blocks disjoint from the live ones; exhaustion of memory and wrap-around of `size_t` are not modelled, nor is the construction of the C++ object in its storage.
- Printer and debug output, the command line, process spawning, linking and temporary files.
- Visitor dispatch is used, not stated as a result of its own.
