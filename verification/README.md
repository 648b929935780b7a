# Sydney: verified models

Dafny models of the parts of Sydney where most of the difficulty is, with proofs of what they
promise. Every file is part of one project: `dafny verify dfyconfig.toml` checks all of it.

**Bytecode compiler and VM.** `Language` gives the integer/boolean fragment of the language
(expressions, if-expressions, declarations and assignments with block shadowing, for loops with
break and continue), the evaluator's meaning of its operators and the VM's. `Arithmetic` says what
the operators compute without saying how, `Meaning` what branches, scopes and loops do, in source
programs and in the bytes made of them. `Typing` has the shape and strict types of the programs
considered; `Checking` has the type checker's own, laxer rules, where they let evaluator and VM
disagree, and the condition under which a program the checker accepts is well typed in the strict
sense; `Acceptance` says which of the programs well typed in the strict sense the checker accepts;
`BoundNames` proves that what compiles is declared before it is used, which the checker does not
ensure, and `Compilability` which programs compile: exactly those that a predicate on the syntax
describes; `SmallPrograms` that those of moderate size also fit the encoding. `Codegen` says which
instructions the compiler emits, `Bytecode` how they are encoded, `Machine` what the VM does with
them. `Placement`, `Emission`, `FrameView`, `Simulation` and `Preservation` prove that a compiled
program does what the source program means: same final variables, same errors, and it stops exactly
when the source program does; `FunctionFrames` says the same of the body of a function, whose
variables are cells of the stack. `Heights` proves that every jump leads to an instruction and that
every instruction has one stack height; `PostClause` and `Unpatched` prove which programs are left
with an unpatched jump; `Slots` follows the variable slots through all blocks. The compiler as it
works, appending bytes, cutting off pops and patching jumps in place, is the class in `Compiler`
(with `SymbolTable`, `Patching` and `Snapshots`); the VM's dispatch loop with its time slice is the
class in `FiberRun`; `EndToEnd` runs one on the other.

**Closures.** `Closures`, `Conversion` and `LexicalScoping`: symbol tables that turn the captured
names of enclosing functions into free variables and leave top-level names global, closures built
from them, and the proof that calling them sees the values the captured names had when the closure
was created and the values the global names have now. `ClosedTerms` says which terms compile,
`CallLaws` how arguments are bound. `CallMachine` is the VM with its frames, stack cells and
captured values, `Assembly` the bytes and the constant pool the compiler makes of closures and
calls, `CallRuns` the proof that these bytes do what the converted code means, and `Programs` puts
it all together, from the source to the bytes.

**Fibers and channels.** `Protocol` is the scheduler as a state machine in which a channel is known
by the history of its calls alone; `Whereabouts` and `SchedulerRuns` prove what holds over every
run, `Effects` what each event does to stacks, queues, states and channels, and that the results of
asynchronous calls reach the fibers that made them. `Channel` and `Scheduler` are the ring buffer,
the wait queues, the run queue and the loop of `Run` as mutable objects, each step of which is a
step of `Protocol`; between any two steps any number of asynchronous calls may end. What the queues
of a channel exclude and what it conserves (`Protocol.QueuesExclusive`, `Protocol.Conserved`)
follows from how the protocol derives them from the history; that the ring buffer and the wait
queues the VM really keeps are those of the history is `Channels.Channel.Valid`, which
`Schedulers.Scheduler.Send` and `Receive` preserve.

**Garbage collector.** `Reachability` and `Collector`: recursive marking, sweep and byte accounting.

**Parser.** `Syntax`, `RoundTrip` and `Chains`: the printer, the operator-precedence parser as a
function, and what relates them; `Parser` is the parser that moves a window over the tokens.

**Native code.** `IrBlocks` has the lines of the emitted IR and what makes blocks, terminators and
labels well formed, `IrCode` which lines are emitted, as a function, `IrShape` the proof that they
are well formed; the emitter with its buffer, flag, label counter and stack of loops is the class in
`Emitter`. `IrRuns` has a machine that executes the lines, given the outcomes of the branches, and
what expressions and statements mean, given the same outcomes; `IrSimulation` proves that the lines
do what the body of a function means, and `IrLaws` says what that is for the usual constructs.

**Libraries and tools.** `HeapSort`, `Loader`, `TypeInference` and `Conv`.

Many proofs contain `hide` statements: they keep definitions that a proof does not need from the
solver.

Findings. Evaluator and VM disagree on operators exactly where `Language.Disputed` says. The type
checker accepts programs on which the evaluator reports an error and the VM computes a value, for
three reasons: an if-expression without alternative has the type of its consequence, as in `(if
(false) { true }) && true` (`Checking.AcceptedButDisputed`); so has an if-expression with branches
of different types whose value is discarded although the block around it is used
(`Checking.MixedButAccepted`); and a declaration without value that hides another variable gets that
variable's type, but the zero value of its own, as in `mut bool x = true; if (true) { mut int x; x
&& true }` (`Checking.HiddenButAccepted`), also where the other variable is only declared later
(`Checking.HoistedButAccepted`) or is a loop variable (`Checking.LoopVariableHidden`).
`Checking.Settled` is the condition that rules these out. A `continue` in the post clause of a for
loop is compiled after the continues were patched and keeps the placeholder 9999
(`Unpatched.LostExact`, `Unpatched.SpinDangles`). An assignment to a captured variable is compiled
to a store into an unrelated local slot (`LexicalScoping.AssignThenRead`,
`LexicalScoping.CapturedAssignmentHits`). A deadlock of the main fiber goes unnoticed
(`SchedulerRuns.MainGoesUnnoticed`). `itoa` of the least integer yields characters that are not
digits (`Conv.ItoaExact`). Type arguments are inferred exactly for parameters that occur outside
option and function types (`TypeInference.InferenceExact`, `TypeInference.OptionLost`).

## Model

| member | source | states |
|---|---|---|
| Language.OperatorsAgree | evaluator/evaluator.go:224-302 | an infix operator gives the same result or error on the VM as in the evaluator if and only if the operands are not disputed: null compared with null, or logic on operands of different kinds |
| Language.PrefixAgrees | evaluator/evaluator.go:179-222 | the same for prefix operators, if and only if it is not `!` of null |
| Arithmetic.WrapExact | evaluator/evaluator.go:247-277 | what wraps is the one number of the 64-bit range that differs by a multiple of 2^64 |
| Arithmetic.SumsExact | evaluator/evaluator.go:247-277 | sum, difference and product of any two integers are numbers of the 64-bit range, equal to those of the integers up to a multiple of 2^64 |
| Arithmetic.AddSubUndo | vm/vm.go:746-773 | for 64-bit integers subtraction undoes addition and addition undoes subtraction; addition commutes |
| Arithmetic.MulRepeats | vm/vm.go:746-773 | multiplying by b + 1 is multiplying by b and adding once more |
| Arithmetic.DivisionExact | evaluator/evaluator.go:247-277 | quotient and remainder exist exactly if the divisor is not 0; then the remainder is smaller than the divisor and has the dividend's sign, and they make up the dividend if and only if it is not the least integer divided by -1 (up to a multiple of 2^64 always) |
| Arithmetic.OrderExact | evaluator/evaluator.go:247-277 | the six comparisons are those of one order: each says or denies, equality and less are those of the integers, and the others are their converses and negations |
| Arithmetic.LogicExact | evaluator/evaluator.go:224-302 | conjunction, disjunction and equality of booleans by their truth tables; any other operator is an error |
| Arithmetic.MixedExact | evaluator/evaluator.go:224-246 | values of different kinds are unequal and have no other operator |
| Arithmetic.PrefixExact | evaluator/evaluator.go:179-222 | the negative is what gives 0 when added; `!` negates and is true of 0 |
| Meaning.BranchLaw | evaluator/evaluator.go:304-317 | the first branch on true, the second on false |
| Meaning.ScopeLaw | compiler/symbol_table.go:103-139 | what a block declares and assigns is its own; what it assigns without declaring is the outer variable |
| Meaning.LoopLaw | compiler/compiler.go:286-337 | a counting loop that adds a number in each turn yields the sum over all n turns, over the turns before the one that breaks, or over all but the one that continues, for all n, turns and numbers |
| Meaning.SummingFine | compiler/compiler.go:286-337 | these programs compile, fit, and are shaped and well typed as the theorems about compiled programs suppose |
| Meaning.SummingRuns | vm/vm.go:106-260 | the machine stops on their bytes with that sum in the variable's global |
| Checking.AcceptedSettled | typechecker/typechecker.go:368-416 | a program the checker accepts and that compiles is well typed in the strict sense if every if-expression whose value is used has an alternative of its type, values of type Unit are not compared, and no declaration without value hides a variable of another type |
| Checking.AcceptedRuns | typechecker/typechecker.go:1046-1147 | such a program never applies an operator or condition on which evaluator and VM disagree, and the machine stops normally if and only if the program does |
| Acceptance.AcceptedExact | typechecker/typechecker.go:1046-1147 | of the programs that compile and are settled the checker accepts exactly those that are well typed in the strict sense, carry the Unit marks the checker records, have no annotated top-level name twice, and declare no name with another type where the checker knows it in the same scope |
| Acceptance.OperatorTypes | typechecker/typechecker.go:1046-1130 | an operator on two operands of one type is accepted exactly if the evaluator computes a value, which has the type the checker says |
| Checking.OneArmedOperand | typechecker/typechecker.go:838-860 | an if-expression without alternative as left operand of a logical operator: the evaluator has an error where the VM has a result if and only if its condition is false |
| Checking.OneArmedRight | typechecker/typechecker.go:838-860 | the same as right operand |
| Checking.OneArmedCondition | typechecker/typechecker.go:838-860 | the same as condition, or under `!`: evaluator and VM go different ways if and only if it is false |
| Checking.AcceptedButDisputed | typechecker/typechecker.go:838-860 | a concrete accepted program on which the evaluator reports an error and the VM computes true |
| Checking.MixedArmsOperand | typechecker/typechecker.go:844-857 | an if-expression with branches of types bool and int as either operand of a logical operator: evaluator and VM part if and only if its condition is false |
| Checking.MixedButAccepted | typechecker/typechecker.go:515-520 | a concrete accepted program that comes to `1 && true` that way |
| Checking.HiddenOperand | typechecker/typechecker.go:368-416 | a declaration without value that hides a variable: the checker goes on with the hidden variable's type, evaluator and VM with the zero value of the declared one; in what the checker then accepts they part if and only if the operator is logical and the types differ |
| Checking.HiddenButAccepted | typechecker/type_env.go:46-53 | `mut bool x = true; if (true) { mut int x; x && true }` is accepted and comes to `0 && true` |
| Checking.HoistedButAccepted | typechecker/typechecker.go:604-620 | so is the program with the two statements exchanged |
| Checking.LoopVariableHidden | typechecker/typechecker.go:317-335 | so is `for (mut bool i = true; i; i = false) { mut int i; i && true }` |
| BoundNames.GenBoundB | compiler/symbol_table.go:103-125 | statements that compile use only names declared before in a block that is still open |
| Compilability.FineExactB | compiler/compiler.go:199-343 | a statement list in any context compiles if and only if it uses names declared before in an open block, declares none twice in a block, assigns to no constant, and breaks and continues only in loops |
| Compilability.FineExact | compiler/compiler.go:109-458 | the same for programs |
| SmallPrograms.SmallFits | code/code.go:137-164 | every program that compiles and has at most 2000 nodes fits the encoding, the globals and the stack |
| Typing.SoundB | typechecker/typechecker.go:1046-1130 | running well-typed statements (strict rules) in a store that fits their types never meets an operand of the wrong kind, and leaves a store that fits the types after |
| Typing.EffectFree | compiler/compiler.go:344-361 | an effect-free operand gives a value or an error without changing the store or leaving a loop, so that it can be evaluated out of order |
| Bytecode.Make | code/code.go:137-164 | the bytes are the opcode followed by each operand big-endian in its width, with zeros for operands not given; an unknown opcode gives no bytes |
| Bytecode.BigEndian | code/code.go:150-187 | the high byte of an operand comes first, in writing and in reading; what does not fit is dropped from above |
| Bytecode.ReadBack | code/code.go:166-187 | reading operands back from what was written returns them if and only if each fits its width |
| Bytecode.EncodeDecode | code/code.go:137-187 | decoding the encoding of fitting instructions, wherever it stands, gives those instructions at their positions |
| Bytecode.CodeAtUnique | code/code.go:128-187 | bytes decode to at most one sequence of instructions of a given length |
| Scoping.RelLookup | compiler/symbol_table.go:103-125 | the slot a name resolves to holds the value the source store has for it |
| Scoping.RelAssign | compiler/compiler.go:244-263 | writing the resolved slot is assigning to the innermost variable of that name, and to no other |
| Scoping.RelDeclare | compiler/compiler.go:199-243 | a declaration gets a slot of its own, so that all variables outside keep their values |
| Slots.CountS | compiler/symbol_table.go:48-78 | the definition count grows by exactly one per declaration, also in blocks that are popped again |
| Slots.SlotsDistinct | compiler/symbol_table.go:48-78 | the slots of all declarations in order, through popped blocks, branches and loop clauses, are the counter, the counter plus one, and so on up to the final count; no two share one and all lie below the count |
| SymbolTables.SymbolTable.Define | compiler/symbol_table.go:48-78 | the symbol gets the old count as index, and all tables of the block chain share the new count |
| SymbolTables.SymbolTable.Find | compiler/symbol_table.go:103-125 | the innermost table that knows the name decides, and the flag says whether it is this table |
| SymbolTables.SymbolTable.Block | compiler/symbol_table.go:133-139 | a new block scope on top of the chain, with the same count |
| Emission.PlaceIf | compiler/compiler.go:414-458 | the generated code of an if-expression is laid out as condition, exit jump, branch, jump over, branch, every jump leading where the layout says |
| Emission.PlaceFor | compiler/compiler.go:286-337 | the generated code of a for loop is laid out as initialisation, condition, exit jump, body, post, jump back, with break and continue leading to the exit and to the post clause or condition |
| Simulation.SimE | evaluator/evaluator.go:224-317 | code of an expression placed at some height mirrors its evaluation: same value on top, same store, same error, same exit from a loop |
| Simulation.SimFor | compiler/compiler.go:286-337 | the same for loops, including break, continue, errors and loops that do not end |
| Preservation.Preserved | compiler/compiler.go:109-458 | for every program that compiles and fits, and every number of iterations: the machine reaches a final state with an empty stack and the program's variables, an error where the program has one, or takes at least that many steps |
| FunctionFrames.BodyPreserved | vm/vm.go:1061-1076 | the same for code whose variables are stack cells from a base pointer on, wherever the frame lies: what is below it and the globals are as before |
| FunctionFrames.FunctionPreserved | compiler/compiler.go:581-605 | the same for the body of a function called with arguments, which are the first cells of its frame |
| Preservation.TypedNotStuck | typechecker/typechecker.go:1046-1130 | well-typed programs (strict rules) never apply an operator on which evaluator and VM disagree |
| Preservation.StopsIffTerminates | compiler/compiler.go:109-458 | for well-typed programs (strict rules) the machine stops normally if and only if the program terminates normally, and then the globals hold the final store and the stack is empty |
| Heights.WellFormed | compiler/compiler.go:998-1021 | every instruction boundary of a compiled program has one operand height, every jump leads to a boundary with the right height, and the program ends with none |
| Heights.OneHeight | vm/vm.go:106-260 | in all reachable states of the machine the stack height is a function of the position in the code |
| PostClause.OpenS | compiler/compiler.go:305-317 | in a loop with a post clause, the code of a statement has an open continue if and only if the statement has a continue of that loop |
| Unpatched.LostExact | compiler/compiler.go:286-337 | for every program that compiles: if no loop at any depth has a continue of its own in its post clause, every jump of the finished code leads to an instruction; otherwise a jump to 9999 is left, and one leads to no instruction unless one happens to begin at that byte |
| Unpatched.NoneLeft | compiler/compiler.go:286-337 | no program of the shape considered is left with such a jump |
| Unpatched.SpinDangles | compiler/compiler.go:305-317 | `for (mut i = 0; true; if (true) { continue }) { }` compiles and is left with one |
| Patching.PatchJump | compiler/compiler.go:1009-1021 | changing a jump's operand changes the encoding of that jump and nothing else |
| Compilers.Compiler.Emit | compiler/compiler.go:959-988 | one instruction is appended and known as the last one |
| Compilers.Compiler.EmitExit | compiler/compiler.go:770-781 | a jump is appended and its position recorded for its loop |
| Compilers.Compiler.RemoveLastPop | compiler/compiler.go:998-1007 | exactly the last instruction, a pop, is cut off |
| Compilers.Compiler.ReplaceInstruction | compiler/compiler.go:1009-1015 | the bytes at the position are replaced and no others |
| Compilers.Compiler.ChangeOperand | compiler/compiler.go:1017-1021 | the operand of the jump at the position is rewritten, the opcode kept |
| Compilers.Compiler.PatchHere | compiler/compiler.go:430-457 | the jump leads to the current end of the code, all other instructions and recorded exits stay |
| Compilers.Compiler.PatchExits | compiler/compiler.go:305-331 | all recorded exits of the loop, and only they, lead to the target |
| Compilers.Compiler.LeaveLoop | compiler/compiler.go:322-331 | after a loop is closed, the loop around still knows exactly its open exits |
| Compilers.Compiler.CompileInfix | compiler/compiler.go:343-399 | emits exactly the specified code, operands of `<` and `<=` swapped; an error exactly when there is no such code |
| Compilers.Compiler.CompileIf | compiler/compiler.go:414-458 | the same, with branches whose last pop is cut off or that push null |
| Compilers.Compiler.CompileFor | compiler/compiler.go:286-337 | the same, with all jumps of the loop patched |
| Compilers.Compiler.CompileStmts | compiler/compiler.go:173-198 | the same for statements in order |
| Compilers.Compiler.CompileDecl | compiler/compiler.go:199-243 | the same; redeclaration in the same block is an error |
| Compilers.Compiler.CompileAssign | compiler/compiler.go:244-263 | the same; assignment to an unknown or constant name is an error |
| Compilers.CompileProgram | compiler/compiler.go:109-458 | the in-place compiler succeeds if and only if the program is compilable, which is said of the syntax alone, and its bytes and constants are the encoding of the specified code |
| FiberRun.Fiber.Execute | vm/vm.go:152-340 | one round of fetch and execute on the stack array is one step of the machine; it fails exactly where the machine does |
| FiberRun.Fiber.RunFiber | vm/vm.go:104-120 | a dispatch executes at most 1023 instructions; it says finished exactly at the end of the code, and preempted only after 1023 instructions |
| FiberRun.Fiber.Dispatch | vm/vm.go:68-120 | dispatching again as long as the fiber is preempted: so many time slices of 1023 instructions, or the end |
| EndToEnd.CompileAndRun | vm/vm.go:68-120 | compiling a well-typed program (strict rules; see Checking.AcceptedSettled) and dispatching it: if it ends, the globals hold the final store of the source program and sp is 0; if it fails, the source program does; otherwise every dispatch used its whole slice of 1023 instructions, which happens only if the dispatches are not enough |
| EndToEnd.EnoughDispatches | vm/vm.go:68-120 | for every program that terminates, normally or with an error, some number of dispatches and all above it are enough |
| Conversion.ResolveGrows | compiler/symbol_table.go:86-125 | resolving only adds captured names, each known to the enclosing function under the recorded symbol and not global |
| Conversion.CompileGrows | compiler/compiler.go:644-705 | compiling only adds captured names to the tables around, leaves their slots alone, and keeps the outermost table global |
| Conversion.Loads | compiler/compiler.go:1287-1300 | a name the function knows resolves to where its value is: local slot, captured value, or the running closure |
| Conversion.SeesCell | compiler/symbol_table.go:103-117 | a name that resolves to a global one, through any number of functions, is bound to the cell of that number |
| LexicalScoping.FnSim | vm/vm.go:1113-1128 | a function literal gives a closure that holds the present value of every captured name |
| LexicalScoping.CallSim | vm/vm.go:1061-1076 | calling a closure that corresponds to a function value gives the function's result, error or excess depth, and does the same to the globals |
| LexicalScoping.Simulates | compiler/compiler.go:483-511 | converted code gives what the term means, in functions at any nesting depth and at top level, with assignments to own and global variables in between |
| LexicalScoping.CapturedAtCreation | vm/vm.go:1113-1128 | nothing captured is global; each captured value is the one its name had at creation, is what the body reads at any call with any globals, and is the enclosing closure for the enclosing function's own name |
| LexicalScoping.GlobalsAreLive | compiler/symbol_table.go:103-117 | a top-level name, from within any number of functions, is not captured and is read from the globals when the code runs |
| LexicalScoping.ConversionCorrect | compiler/compiler.go:644-705 | whole programs, whose top level is global, give the same numbers, errors, call depth and final globals as in the source semantics, provided no captured variable is assigned to |
| CallMachine.EncodedOpsAt | code/code.go:137-187 | decoding the encoding of instructions with fitting operands, also those with two, gives them at their positions |
| CallRuns.Runs | compiler/compiler.go:644-705 | running the bytes of any code in any frame: its value on top, the locals and globals it leaves, all cells below and the frames around untouched; its error; or as many calls deep as its meaning |
| CallRuns.ArgsRun | compiler/compiler.go:500-511 | the same for arguments, left to right |
| CallRuns.ClosureStep | vm/vm.go:1113-1128 | OpClosure takes the captured values off the stack and leaves the closure that corresponds |
| CallRuns.NoCall | vm/vm.go:1045-1076 | OpCall is an error exactly for what is no function or has other parameters, fails for lack of cells or frames, and otherwise enters the function |
| CallRuns.Returns | vm/vm.go:291-306 | OpReturnValue restores the frame, sp and ip of the caller, with the value in place of the closure |
| Programs.BytesCorrect | compiler/compiler.go:644-705 | every program with closures, calls and recursion, on the bytes, whatever lies in the stack cells: the VM runs out of cells or frames, or halts with the value and the globals of the source, or has an error where the source has one, or is as many calls deep |
| Programs.EveryRunEnds | vm/vm.go:1061-1076 | with a limit on frames every such program ends on the VM: with its value, with an error, or for lack of room |
| ClosedTerms.CompilesExactly | compiler/compiler.go:581-642 | a term compiles in given tables if and only if its names are bound there or in it, and it assigns to no parameter, also not to one of an enclosing function |
| ClosedTerms.ProgramCompiles | compiler/compiler.go:581-642 | the same for whole terms |
| CallLaws.CallMeans | compiler/compiler.go:581-605 | arguments are bound to parameters in order, and sums are those of the integers up to a multiple of 2^64 |
| LexicalScoping.NewValueSeen | compiler/symbol_table.go:38-46 | compiled code: a top-level variable assigned after a closure was created is seen with its new value by the closure, for all names and numbers |
| LexicalScoping.OldValueSeen | vm/vm.go:1113-1128 | compiled code: in a function the closure sees the old value, for all names and numbers |
| LexicalScoping.AssignThenRead | compiler/compiler.go:250-263 | an assignment is seen by a read right behind it, except if the name is captured or the function's own; then the old value is read and an unrelated local slot holds the new one |
| LexicalScoping.CapturedAssignmentHits | compiler/compiler.go:250-263 | `func() { mut y = c; x = b; y }` with captured `x` returns `b` |
| Protocol.QueuesExclusive | vm/scheduler.go:95-186 | waiting senders mean a full buffer and no waiting receivers; waiting receivers mean an empty buffer and no waiting senders; senders wait at an empty buffer only without capacity |
| Protocol.Conserved | vm/scheduler.go:95-186 | the values sent are those handed over, then the buffer, then those of waiting senders; the receive calls are those served, then those waiting |
| Whereabouts.StepKeeps | vm/scheduler.go:34-208 | every step of the scheduler, of a fiber or of finished I/O keeps: each fiber in the one queue of its place, its state field and the I/O count in agreement |
| SchedulerRuns.OnePlace | vm/scheduler.go:34-208 | in every reachable state a queued fiber is in that queue once, in no other queue, and its state field says so |
| SchedulerRuns.Somewhere | vm/scheduler.go:34-208 | in every reachable state every fiber is in exactly the queue of its place, or in none, and then it is done or its asynchronous call is under way |
| SchedulerRuns.VerdictExact | vm/vm.go:68-102 | when Run stops it reports a deadlock if and only if some spawned fiber is not done; without error all spawned fibers are done |
| SchedulerRuns.NothingHappens | vm/vm.go:71-87 | when Run stops no fiber is ready, no I/O is outstanding and no event of any kind is possible |
| SchedulerRuns.BlockedOnChannel | vm/scheduler.go:95-186 | every fiber blocked at that point is in the queue of a channel |
| SchedulerRuns.MainGoesUnnoticed | vm/vm.go:83-87 | a main fiber blocked alone: Run returns without error |
| SchedulerRuns.QuietExact | vm/vm.go:82-87 | when Run returns without error, all fibers are done if and only if the main fiber is |
| SchedulerRuns.DeliveredOnStack | vm/scheduler.go:67-70 | the stacks change by exactly the value delivered |
| SchedulerRuns.RunDelivers | vm/scheduler.go:95-186 | over every run and interleaving, a channel delivers exactly the k-th value sent to the k-th fiber that asked, once and in order, for every k for which both happened |
| Effects.StackEffect | vm/scheduler.go:67-70 | for every event, what each fiber's stack becomes: the arguments of a spawned fiber, the work of the running one, the value of the oldest finished call for the fiber that made it, the next value sent for the fiber that is to receive it, and nothing for all others |
| Effects.QueueEffect | vm/scheduler.go:41-65 | for every event, what the run queue, the running fiber and the spawned fibers become: fibers made ready go to the end, one at a time |
| Effects.StateEffect | vm/scheduler.go:41-186 | for every event and fiber, its state after |
| Effects.ChannelEffect | vm/scheduler.go:72-186 | for every event and channel, the values sent and the requests so far; a new channel is empty and has the capacity asked for |
| Effects.ResultsArrive | vm/scheduler.go:197-208 | over every run, the results pushed for finished calls and those still pending are exactly those of the calls that ended, each once, for its fiber, in order |
| Effects.AllResultsArrived | vm/vm.go:68-102 | when the scheduler stops none is pending |
| Effects.OneResultEach | vm/vm.go:1081-1094 | over every run, a fiber gets as many results as it made calls, less the one it waits for |
| SchedulerRuns.BoundedWaiting | vm/scheduler.go:41-54 | the fiber at index k of the run queue is dispatched by the (k+1)-th dispatch, whatever else happens |
| Channels.RingPut | vm/channel.go:15-38 | writing at the tail appends to the contents of the ring |
| Channels.RingTake | vm/channel.go:15-38 | reading at the head takes the first of the contents |
| Channels.Channel.TakeStored | vm/scheduler.go:142-168 | the value taken is the one the history says, and a waiting sender's value takes its room; ring and queues stay what the history says |
| Channels.Channel.TakeFromSender | vm/scheduler.go:170-181 | the waiting sender's value is the next one, and this happens only without a buffer |
| Schedulers.Scheduler.Send | vm/scheduler.go:95-128 | sending is the protocol's send: longest waiting receiver, else buffer, else wait |
| Schedulers.Scheduler.Receive | vm/scheduler.go:139-186 | receiving is the protocol's receive |
| Schedulers.Scheduler.Next | vm/scheduler.go:41-48 | the head of the run queue becomes the running fiber; none exactly if the queue is empty |
| Schedulers.Scheduler.Spawn | vm/vm.go:562-580 | a new fiber at the end of the run queue |
| Schedulers.Scheduler.MakeChannel | vm/scheduler.go:72-84 | a new channel under an unused id |
| Schedulers.Scheduler.CallAsync | vm/vm.go:1081-1094 | the fiber is blocked and counted as waiting for I/O |
| Schedulers.Scheduler.Interfere | vm/vm.go:1081-1094 | any number of calls under way end, in any order and with any results; each is an event of the protocol |
| Schedulers.Scheduler.DrainWakeups | vm/scheduler.go:197-208 | all finished calls are taken up, in order, also those that end meanwhile; it ends with none left |
| Schedulers.Scheduler.AwaitWakeup | vm/vm.go:74-80 | with I/O outstanding, one finished call is taken up, waiting for one if there is none yet |
| Schedulers.Scheduler.HasBlockedFibers | vm/scheduler.go:188-195 | true exactly if some spawned fiber is blocked |
| Schedulers.Scheduler.Run | vm/vm.go:68-102 | whatever the fibers do and whenever I/O ends, also between two steps of a running fiber, the loop performs steps of the protocol and stops only when nothing is left to do, with the verdict that fits |
| Schedulers.RunProgram | vm/vm.go:68-102 | a new VM that ends without error has all spawned fibers done; one that reports a deadlock has a blocked fiber, an empty run queue and no outstanding I/O |
| Reachability.ExactlyReachable | sydney_rt/src/gc.rs:88-138 | a closed set of reachable blocks with the roots in it is exactly the set of reachable blocks |
| Reachability.TotalWithout | sydney_rt/src/gc.rs:121-134 | the sum of the sizes does not depend on the order of the blocks |
| Reachability.NothingLeftToFree | sydney_rt/src/gc.rs:88-138 | what survives a collection is exactly what is reachable within the survivors |
| Collector.GcState.Mark | sydney_rt/src/gc.rs:167-179 | marks the block and all it reaches but what is being scanned, nothing unreachable, changes no sizes, and terminates because the unmarked blocks get fewer |
| Collector.GcState.ScanRange | sydney_rt/src/gc.rs:181-190 | marks what every word of the block points to |
| Collector.GcState.StackRoots | sydney_rt/src/gc.rs:101-107 | exactly the words that are the address of a block |
| Collector.GcState.Sweep | sydney_rt/src/gc.rs:121-134 | exactly the marked blocks stay, unmarked again, and the byte counter is the sum of their sizes |
| Collector.GcState.Collect | sydney_rt/src/gc.rs:88-138 | the surviving blocks are exactly those reachable from the root words, unchanged; no mark is left; the counter is the sum of their sizes |
| Collector.GcState.Alloc | sydney_rt/src/gc.rs:58-85 | a new block of the size, null for sizes that are not positive; nothing reachable is lost, nothing at all is below the threshold, and at the threshold nothing unreachable is kept |
| Collector.CollectedTwice | sydney_rt/src/gc.rs:88-138 | a second collection frees nothing |
| RoundTrip.PrintedParses | parser/parser.go:539-661 | the tokens of a printed tree, at any precedence below a call's, give that tree and parsing goes on behind them |
| RoundTrip.PrintThenParse | ast/ast.go:782-844 | parsing the tokens of a printed tree returns that tree and consumes them all |
| RoundTrip.FormsRead | parser/parser.go:539-661 | what each form of tokens is read as: literals, prefix and infix operators, indexing, with operands in order |
| RoundTrip.ListsRead | parser/parser.go:894-918 | arguments and elements in order |
| Chains.PrecedenceOrder | parser/parser.go:17-53 | the parser's precedences are the order of six classes of operators, `*` `/` `%` over `+` `-` over `<` `>` over `<=` `>=` over `==` `!=` over the logical ones |
| Chains.RootLoosest | parser/parser.go:35-53 | the root of a proper nesting is the last of the operators of the loosest class |
| Chains.OnlyOne | parser/parser.go:35-53 | two nestings of a chain that respect precedence and associate to the left are the same |
| Chains.ChainParses | parser/parser.go:539-644 | every chain of operands and operators has exactly one nesting that respects the order of classes and associates to the left, and the parser returns it and consumes all tokens |
| Chains.TwoOperators | parser/parser.go:35-53 | of two operators in a row the second is applied first if and only if its class is strictly tighter |
| Chains.PostfixTightest | parser/parser.go:35-53 | calls and indexing bind tighter than prefix operators and than infix operators on either side |
| Parsers.Parser.NextToken | parser/parser.go:199-203 | the window of three tokens moves by one |
| Parsers.Parser.ParseExpression | parser/parser.go:539-565 | the result and the tokens left are those of the parsing function; a failure records an error |
| Parsers.Parser.ParseInfixExpr | parser/parser.go:636-644 | the same for the infix functions |
| Parsers.Parser.ParseExpressionList | parser/parser.go:894-918 | the same for lists |
| Parsers.ParsePrinted | ast/ast.go:782-844 | a parser on the tokens of a printed tree returns the tree, without error, with nothing left |
| IrBlocks.ScanExact | irgen/emitter.go:597-736 | reading lines succeeds with the last block closed if and only if a label stands exactly after each terminator and the last line is a terminator |
| IrShape.FineN | irgen/emitter.go:597-736 | the lines specified for any expression, in an open or a terminated block, keep blocks well formed, define new labels once, and refer to their own labels or the enclosing loop's |
| IrShape.FineC | irgen/emitter.go:775-824 | the same for statements, also behind a terminator |
| IrShape.FunctionWellFormed | irgen/emitter.go:1803-1822 | in every function body each block has exactly one terminator and it is last, labels are defined at most once, and every branch leads to a defined label |
| IrSimulation.SimN | irgen/emitter.go:597-736 | the lines of any expression, wherever they stand, execute for all branch outcomes what the expression means, and then go on behind, or are at the innermost loop's labels, at a return, at an `unreachable`, or at a branch without outcome |
| IrSimulation.SimTwo | irgen/emitter.go:1711-1763 | a branch leads to the first arm exactly on true, and both arms meet behind |
| IrSimulation.SimAround | irgen/emitter.go:1451-1492 | a loop is left exactly when its condition is false or at a break, which leads behind it; a continue leads to the post clause, or to the condition if there is none; for every number of turns |
| IrSimulation.FunctionMeans | irgen/emitter.go:1803-1822 | for every function body and every sequence of branch outcomes the lines execute what the body means, and end at a return, an `unreachable` or a branch without outcome as it says, or run as long as the bound on turns |
| IrLaws.IfLaw | irgen/emitter.go:1711-1763 | what an if-expression with straight-line parts executes, with and without alternative |
| IrLaws.MatchLaw | irgen/emitter.go:2797-2957 | the same for result and option matches, with the result stored and fetched |
| IrLaws.TypesLaw | irgen/emitter.go:2967-3058 | types are tested in order, the default comes last |
| IrLaws.LoopLaw | irgen/emitter.go:1451-1492 | a loop executes condition, body and post clause k times and leaves at the first false, for every k |
| IrLaws.BreakLaw | irgen/emitter.go:775-824 | break leads behind the loop |
| IrLaws.ContinueLaw | irgen/emitter.go:775-824 | continue leads to the post clause, or to the condition |
| Emitters.Emitter.EmitExpr | irgen/emitter.go:597-736 | any expression: exactly the specified lines are added, label counter and flag are as specified, the stack of loops is as before, and blocks stay well formed |
| Emitters.Emitter.EmitCheck | irgen/emitter.go:1096-1123 | the same for the check for division by zero and that of array bounds: two new labels, a block that ends in `unreachable`, and an open block behind it |
| Emitters.Emitter.EmitChecked | irgen/emitter.go:2316-2373 | the same for division and access to array elements |
| Emitters.Emitter.EmitWrap | irgen/builtins.go:107-136 | the same for the blocks that wrap the result of a builtin: three new labels, two blocks that meet again |
| Emitters.Emitter.EmitWrapped | irgen/builtins.go:107-136 | the same for calls of such builtins |
| Emitters.Emitter.EmitIf | irgen/emitter.go:1711-1763 | the same for if-expressions with and without alternative |
| Emitters.Emitter.EmitResultMatch | irgen/emitter.go:2797-2889 | the same for result matches, also when no arm gets to the end |
| Emitters.Emitter.EmitOptionMatch | irgen/emitter.go:2891-2957 | the same for option matches |
| Emitters.Emitter.EmitTypeMatch | irgen/emitter.go:2967-3058 | the same for type matches; the end label is missing only when nothing refers to it |
| Emitters.Emitter.EmitFor | irgen/emitter.go:1451-1492 | the same for loops |
| Emitters.Emitter.EmitForIn | irgen/emitter.go:1502-1588 | the same for loops over collections |
| Emitters.Emitter.EmitStmt | irgen/emitter.go:775-824 | the same for statements |
| Emitters.Emitter.EmitFunction | irgen/emitter.go:1803-1822 | the buffer holds exactly the specified lines of the body, which are well formed |
| HeapSort.SiftDown | stdlib/heap/heap.sy:5-22 | restores the max-heap on a suffix within the first n elements, keeps these elements as a multiset and all others in place, and terminates |
| HeapSort.Heapify | stdlib/heap/heap.sy:37-42 | any collection becomes a max-heap of the same elements |
| HeapSort.Sort | stdlib/heap/heap.sy:44-50 | any collection ends up sorted by a total preorder and a permutation of what it was |
| Loading.Loader.Load | loader/loader.go:155-202 | from any visited set: each package newly reachable once, imports first, what is visited afterwards closed under imports; terminates |
| Loading.LoadAll | loader/loader.go:155-202 | each reachable package exactly once and all of them; packages come after their imports if and only if none of them reaches itself through imports; an error if and only if a reachable package does not exist |
| TypeInference.Checker.UnifyType | typechecker/typechecker.go:2486-2506 | the bindings are those of unification as a function |
| TypeInference.UnifyRecovers | typechecker/typechecker.go:2486-2506 | unifying with an instance binds exactly the parameters in open positions, each to what it was instantiated with |
| TypeInference.UnifyKeeps | typechecker/typechecker.go:2486-2506 | whatever the argument, what is bound stays bound to the same type, and only open parameters are bound in addition |
| TypeInference.SubstituteGeneric | types/type.go:170-217 | substituting concrete types leaves a type parameter if and only if one is not bound |
| TypeInference.Untouched | types/type.go:170-217 | a type none of whose parameters is bound stays as it is, up to the marks of empty literals |
| TypeInference.InferenceExact | typechecker/typechecker.go:2486-2506 | the inferred bindings substitute back to the instance, with its signature, if and only if every parameter occurs in an open position |
| TypeInference.OptionLost | typechecker/typechecker.go:2486-2506 | a parameter under an option, or of a function type, is bound by no argument and is left over |
| Conv.Atoi | stdlib/conv/conv.sy:6-17 | a string of digits gives its value modulo 2^64, any other string an error |
| Conv.ItoaLoop | stdlib/conv/conv.sy:19-44 | the digits of the loop, with a sign for negative numbers |
| Conv.RoundTrip | stdlib/conv/conv.sy:6-44 | for all 64-bit integers: what itoa gives is read back as the number if and only if it is not negative |
| Conv.ItoaExact | stdlib/conv/conv.sy:19-44 | for all 64-bit integers: itoa gives the sign and the digits of the absolute value if and only if the number is not the least one |
| Conv.NegativeItoa | stdlib/conv/conv.sy:19-44 | a negative number but the least is a sign and its absolute value |
| Conv.LeastItoa | stdlib/conv/conv.sy:27-43 | the least integer ends in a character that is not a digit |
| Conv.ThereAndBack | stdlib/conv/conv.sy:6-44 | atoi after itoa is the number, or an error for negative numbers |

## Left out

- Values: floats, strings, bytes, arrays, maps, structs, interfaces, options and results on the VM; declarations annotated with types other than int and bool. `/` by zero in the evaluator and `%` by zero in both evaluator and VM end the Go program; here they count as errors, as `/` by zero on the VM does.
- Bytecode for functions: control flow within a function (Preservation, FunctionFrames) and calls, closures and captured names (Closures to Programs) are two models, each down to the bytes; terms with functions have numbers, addition, declarations and assignments, no if, loop or early return, and their symbol tables are values, not linked objects.
- FunctionFrames.FunctionPreserved: without the return, which is CallRuns.Returns.
- Programs.BytesCorrect: globals hold 0 until the program stores to them, where the VM has nil; no code reads them before. A call for which there are too few cells fails at once, in the VM at the first push of the function. All declarations use the instructions for mutable variables, and the OpPop behind a program is left out.
- LexicalScoping.ConversionCorrect: for terms in which no captured variable and no function's own name is assigned to (Closures.Clean), since the compiler stores such a value to a local slot; parameters are constants, as those of function literals are; each `Let` opens a block, so that a name can be declared again.
- SymbolTables.SymbolTable.Define: the tables of one function's block chain, at global level; local, free and function scopes are in Closures.
- SymbolTables.SymbolTable.Find: the same; capture from enclosing functions is Closures.Resolve.
- VM match expressions and for-in loops, hoisted function declarations, builtin and module-mangled names.
- Programs outside `Typing.ShapedB`: valued ifs whose branches do not both leave a value, break or continue while an operand is pending, reordered operands with effects, exits from the clauses of a for loop (for the post clause see Unpatched).
- Limits: jump targets, constants and slots fit their operands and operands fit the stack (`Preservation.Fitting`); frame limits are not modelled.
- Compilers.CompileProgram: a break or continue outside any loop counts as an error; the Go program dereferences nil there.
- Compilers.Compiler.CompileFor: source maps and debug symbols are not modelled.
- FiberRun.Fiber.RunFiber: without the debugger, and for one frame.
- Schedulers.Scheduler.Run: calls end between steps, not within one; what a fiber computes between scheduler calls is arbitrary work on its own stack; the rounds of the loop are bounded by a parameter; the capacity of the wakeup channel and the bound of fiber stacks are not modelled.
- Schedulers.Scheduler.MakeChannel: a negative capacity, which ends the Go program, is excluded by the type.
- Collector.GcState.Collect: the machine stack is a given sequence of words, memory does not change during a collection, interior pointers and values of maps are not roots, and sizes do not overflow the counter.
- Parsers.Parser.ParseInfixExpr: stops at the first error too.
- Parsers.Parser.ParseExpressionList: stops at the first error too.
- Parsers.Parser.ParseExpression: stops at the first error, where the source records it and goes on; selectors, slices, scope access, generic calls, struct literals, strings, floats, bytes, null, if-, match- and function expressions and the lexer are not modelled.
- Emitters.Emitter.EmitFunction: function literals and spawn thunks, the operands and types of instructions, and the blocks named by phi instructions are not modelled.
- IrSimulation.FunctionMeans: an instruction is known by its kind; what it computes, and hence which way a branch goes, is not modelled, so that both sides are given the outcomes. A break or continue in a clause of a loop is one of that loop, as the emitter pushes the loop's labels before it emits the clauses.
- Loading.LoadAll: files, module types and generic names are not modelled; any failure to load a package is a package that does not exist.
- TypeInference.InferenceExact: struct, interface and channel types are not modelled.
- HeapSort.Sort: `sift_up`, which repairs the opposite order, is not modelled.
- Typing.SoundB: stricter than the type checker, whose own rules are in Checking: an if-expression without alternative has type Unit and comparing two values of type Unit is ill-typed, since evaluator and VM disagree on them. Preservation.TypedNotStuck, Preservation.StopsIffTerminates and EndToEnd.CompileAndRun are about this strict typing.
- Preservation.TypedNotStuck: see Typing.SoundB; false for all programs the checker accepts, by Checking.AcceptedButDisputed.
- Preservation.StopsIffTerminates: see Typing.SoundB.
- EndToEnd.CompileAndRun: see Typing.SoundB.
- Checking.AcceptedSettled: of the type checker only the rules for the fragment; that constants are not assigned to, and that break and continue stand in loops, where the flag for it is lost behind an inner loop, is not modelled, so that the model accepts more programs than the checker; a constant without value is ruled out by the parser.
- LSP, REPL, debugger server, file, socket and terminal builtins, macros and derive: input/output or thin wrappers.
