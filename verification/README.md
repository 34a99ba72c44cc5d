# Verified model of the RTG compiler's back half

RTG compiles a subset of Go to a flat, labelled stack-machine IR, drops unreachable
functions, and then interprets the IR or lowers it to WebAssembly or to native code. This
project models five parts of it and proves them right:

1. **The WebAssembly stackifier** turns labels and jumps into nested `block`/`loop`/`if`
   with numeric branch depths. `Ir` is the flat machine, `Wasm` the structured one
   (WebAssembly Core Specification, section 4.4), `Shape` the shapes of code that the lowering
   emits, as trees that flatten to labelled code. `Stackify` states what the emitter computes
   on any code; `WasmGen` is the emitter object, loop for loop, proved against it. `Searches`,
   `ScanShape`, `SortShape` and `EmitShape` prove that on every well-formed shape it emits
   exactly the structured code of `Structured` and restores its block stack; `Simulation` runs
   the two machines in step; `StackifyCorrect` puts it together; `LinearForm` reads the stream
   back. `Tags` is about labels that are reached with a value on the operand stack, the tag of a
   `switch`: a block hands nothing on, so the code there takes the tag from a temporary.
2. **The lowering** of functions over ints, bools, local variables, all operators that need no
   memory, short circuits, nested scopes, `if`, the three `for` forms without `range`, `break`,
   `continue` and `return`. `Ast` evaluates programs directly; `Lower` is the lowering as
   functions; `Compiler` the compiler object proved against them. `LowerCorrect`, `LowerStmts`
   and `LowerFuncs` prove that meaning is preserved; `LowerShape`, `LowerLevels` and `LowerEnds`
   that the emitted code has the shape the stackifier needs. `Depths` is about the static
   operand-stack depth, `Literals` about constants that fit the target's int, `Typed` a type
   checker whose functions never get stuck. `Departures` and `Posts` say exactly when code outside
   the fragment is right: declarations that read the name they declare, and loops whose init is an
   expression, of which the compiler drops init and post. `Switches` adds the switch with a tag: its
   lowering, its meaning, and when its code has that meaning; `SwitchShape` and `SwitchFuncs` take
   functions with a switch to WebAssembly, `SwitchNative` to native code.
3. **The pending push** of the native code generator keeps the top of the operand stack in a
   register. `Eager` is the machine that pushes at once, with memory, globals, calls and
   interface calls besides the instructions of `Ir`; `Native` an abstract x86-64, `Pending` the
   stack operations and instruction templates, `CodeGen` the generator object, which patches its
   own jumps. `PendingInsts` and `IfaceCalls` prove every template, `PendingRuns` whole runs,
   `NativeMemory` which bytes loads and stores touch, `NativeFuncs` the composition with the
   lowering and the prologue.
4. **Dead-function elimination** (`Dce`): a worklist that computes a least set.
5. **The VM heap** (`Heap`): a bump allocator that grows the memory and two slab allocators
   whose free lists run through the freed slots.

Three machines run the same core IR (`Ir.Machine`): they differ in word size and in how `!` is
computed. A run is a sequence of single steps; "ends with r" means that some number of steps
reaches the end with the values r. Every preservation theorem goes both ways, so a program
that runs forever before still runs forever after.

`Pipeline` composes the passes: a function of the fragment becomes a WebAssembly body or native
code whose results are those of direct evaluation. Nothing here executes the compiler: the
statements are about the model, whose members follow the Go code cited beside them. Where one
member stands for two Go copies of a routine, or a routine is modelled without some of its
instructions, "Left out" says so.

## Model

| member | source | states |
|---|---|---|
| Ir.LabelPosFound | std/compiler/backend_vm.go:928-936 | with distinct labels the VM's label table sends a jump to the one definition of its label |
| Ir.LabelPosLast | std/compiler/backend_vm.go:928-936 | otherwise it is where the label is defined last, and position 0 if it is nowhere |
| Ir.ResultUnique | std/compiler/backend_vm.go:938-1335 | a run that ends has one result, however long it is watched |
| WasmGen.FindLabelIn | std/compiler/backend_wasm32.go:628-635 | the inline search loop returns the first definition of a label in a range, or -1 |
| WasmGen.DetectShortCircuit | std/compiler/backend_wasm32.go:626-653 | a jump is taken for a short circuit exactly when target, constant, end label and the jump to the end stand in the required pattern inside the range |
| WasmGen.FindBreakLabel | std/compiler/backend_wasm32.go:968-986 | the label right after the last jump back to the loop, or -1 |
| WasmGen.SortTargets | std/compiler/backend_wasm32.go:761-770 | the in-place insertion sort computes SortFurthest |
| WasmGen.WasmGen.FindBlockDepth | std/compiler/backend_wasm32.go:988-1001 | the distance from the innermost open block to the nearest one with the label, or -1 |
| WasmGen.WasmGen.MarkLiveBreak | std/compiler/backend_wasm32.go:1003-1009 | every jump still finds its block; exactly the jumps whose block is at this depth now find a live one |
| WasmGen.WasmGen.CollectTargets | std/compiler/backend_wasm32.go:694-759 | the pre-scan skips loop bodies, excludes short-circuit labels and collects each forward target once |
| WasmGen.WasmGen.EmitStructured | std/compiler/backend_wasm32.go:689-966 | the recursive emission over a shrinking range computes EmitRange: output, block stack and dead flag |
| WasmGen.WasmGen.Stackify | std/compiler/backend_wasm32.go:655-687 | both passes compute StackifyCode on any code |
| WasmGen.WasmGen.CompileInst | std/compiler/backend_wasm32.go:1013-1136 | each instruction appends its operations and only a return makes the position dead |
| WasmGen.WasmGen.CompileReturn | std/compiler/backend_wasm32.go:1550-1608 | results are saved last first, the frame is popped, results reloaded first to last, then the function returns |
| WasmGen.WasmGen.CompileFunc | std/compiler/backend_wasm32.go:371-444 | the prologue and then the stackified body |
| Wasm.PlainSim | std/compiler/backend_wasm32.go:1013-1090 | the operations of a straight-line instruction change operand stack and frame as the VM's step with 4-byte words does |
| Wasm.ReturnSim | std/compiler/backend_wasm32.go:1550-1608 | from any nesting of blocks a return ends the function with the whole operand stack, in order; the shadow-stack pointer goes up by the frame, and no memory but the scratch words of the results changes |
| Searches.LoopFound | std/compiler/backend_wasm32.go:708-723 | for every well-formed loop the search finds its own break label and its end, never an inner or outer one |
| Searches.ShortFound | std/compiler/backend_wasm32.go:626-653 | every short circuit of a well-formed shape is detected, with its exact extent |
| Searches.NotShort | std/compiler/backend_wasm32.go:626-653 | no other conditional jump of a well-formed shape is taken for a short circuit |
| ScanShape.ScanLevel | std/compiler/backend_wasm32.go:694-759 | the pre-scan of a level collects its forward targets with their positions and excludes exactly the short-circuit labels |
| SortShape.SortSorts | std/compiler/backend_wasm32.go:761-770 | sorting keeps the elements and orders them strictly, furthest first |
| SortShape.SortedIsOpen | std/compiler/backend_wasm32.go:761-776 | the sorted targets are the open blocks of the level: each label some jump targets, outermost last in the text |
| EmitShape.EmitsRange | std/compiler/backend_wasm32.go:689-966 | for every well-formed shape, reloads of the temporary included, emission of a level opens and closes its own blocks only: the block stack comes back as it was, live marks included, and the output is the linear form of the structured code |
| EmitShape.LabelDepth | std/compiler/backend_wasm32.go:823-831 | a label that closes a block finds it innermost (depth 0), every other label finds none |
| Tags.CalmAtZero | std/compiler/backend_wasm32.go:837-853 | where the operand stack is empty no reload of the temporary is triggered, whatever follows |
| Tags.PlainTally | std/compiler/backend_wasm32.go:837-853 | code that neither defines nor names a tag label keeps the heights that `Shape` gives it, wherever it stands among switches |
| Wasm.PlainTemp | std/compiler/backend_wasm32.go:1013-1110 | DUP of the only value leaves it in the temporary; every other straight-line instruction but NEG and stores leaves the temporary alone |
| Simulation.BranchReloads | std/compiler/backend_wasm32.go:837-853 | after a branch to a label before a DUP or DROP the operand stack holds what the temporary holds |
| Simulation.LandForward | std/compiler/backend_wasm32.go:820-857 | a branch to a label of its level lands where the label stands with the operand stack it left with: empty, or the tag, which the branch drops and the code at the label takes from the temporary |
| StackifyCorrect.ClassifyLevel | std/compiler/backend_wasm32.go:656-683 | pass 1 calls exactly the loop heads headers and every label a forward jump names a target |
| StackifyCorrect.StackifyEmits | std/compiler/backend_wasm32.go:655-687 | for every well-formed shape the emitted tokens are those of its structured code and no block stays open |
| StackifyCorrect.CompiledFunction | std/compiler/backend_wasm32.go:371-444 | the stream written for a function, read back, is prologue plus structured body |
| LinearForm.ParseBack | std/compiler/wasm32.go:247-272 | structured code is recovered from its linear stream, with whatever follows left over |
| Structured.EnterLevel | std/compiler/backend_wasm32.go:772-776 | running into a level opens one block per target, furthest outermost, and reaches its first instruction |
| Simulation.SimStep | std/compiler/backend_wasm32.go:778-966 | from matched places both machines move to matched places again, a tag on the stack included, or both end with the same values and, in code that ends in a return, the frame given back; each branch lands where the jump's label stands, at a live place |
| Simulation.FlatEnds | std/compiler/backend_wasm32.go:689-966 | when the labelled code ends, the structured code ends with the same values - in code that ends in a return, with its frame given back and the memory outside frame and scratch words as at entry |
| Simulation.StructuredEnds | std/compiler/backend_wasm32.go:689-966 | when the structured code ends, it has left in the same order and the labelled code ends with the same values: code marked dead is not reached |
| StackifyCorrect.StackifierPreserves | std/compiler/backend_wasm32.go:655-966 | for every body whose labels are reached with an empty stack, or with a tag that the temporary holds: labelled body and structured body end with the same values or both run on; neither crashes, neither traps; a body that ends in a return always leaves with its frame given back and the memory outside frame and scratch words as it was |
| StackifyCorrect.FunctionPreserves | std/compiler/backend_wasm32.go:371-444 | the same for a called function with its prologue, whatever the shadow stack held: the caller finds its shadow-stack pointer again, and its memory outside the callee's frame below it and the scratch words |
| Compiler.Compiler.LookupLocal | std/compiler/ir.go:1438-1448 | the slot of the innermost scope that declares the name |
| Compiler.Compiler.AddLocal | std/compiler/ir.go:1429-1436 | the name now means the new slot, every other name what it meant before, and no two names share a slot |
| Compiler.Compiler.CompileExpr | std/compiler/ir.go:2726-2758 | appends the flattened lowering, uses exactly its labels, and leaves the static depth one higher |
| Compiler.Compiler.CompileShortCircuit | std/compiler/ir.go:2959-2993 | both short-circuit operators, with the depth reset between the branches |
| Compiler.Compiler.CompileStmt | std/compiler/ir.go:1550-1615 | appends the flattened lowering, keeps break and continue targets, leaves the static depth as it was |
| Compiler.Compiler.CompileIf | std/compiler/ir.go:2393-2434 | the same for `if`, whatever the branches return |
| Compiler.Compiler.CompileFor | std/compiler/ir.go:2436-2491 | the same for the loop forms; only the three-clause form opens a scope |
| Compiler.Compiler.CompileSwitch | std/compiler/ir.go:2613-2707 | appends the flattened lowering of the switch, uses exactly its labels, keeps break and continue targets and leaves the static depth as it was |
| Compiler.Compiler.CompileReturn | std/compiler/ir.go:2052-2070 | the results in order, then a return of their number |
| Compiler.Compiler.CompileFunc | std/compiler/ir.go:1196-1360 | parameters are the first slots, the code ends in a return, and the depths counted while emitting are those of Depths |
| Depths.JumpsMeet | std/compiler/ir.go:1456-1536 | every jump of well-shaped code leaves with the static depth its label was emitted at |
| LowerFuncs.LabelHeight | std/compiler/ir.go:1456-1526 | at every label, and every other instruction, that any run on any machine reaches, the operand stack is as high as the compiler's static depth there |
| Compiler.PlainLoop | std/compiler/ir.go:2463-2485 | a loop form that opens no scope has the code it would have with one |
| Lowered.StmtFollows | std/compiler/ir.go:1419-1454 | lowering keeps outer scopes, break and continue targets, and gives every name a slot of its own |
| LowerCorrect.SetRel | std/compiler/ir.go:1963-1984 | storing to the slot of a name changes that variable and no other, shadowed ones included |
| LowerCorrect.BinEnc | std/compiler/backend_vm.go:1015-1133 | word arithmetic and comparison agree with signed wrap-around ints and with bools |
| LowerCorrect.ExprSim | std/compiler/ir.go:2726-3080 | the code of an expression pushes the word of its value and does nothing else, on every machine; short circuits skip the right operand |
| LowerStmts.StmtSim | std/compiler/ir.go:1550-1615 | the code of a statement ends normally, at the break or continue label, or with the returned values, exactly as evaluation does; while evaluation needs more fuel the code is still running |
| LowerStmts.IterSim | std/compiler/ir.go:2446-2490 | the same for a loop, iteration by iteration |
| LowerShape.ExprShaped | std/compiler/ir.go:2726-3080 | expressions lower to straight lines and short circuits with fresh distinct labels, one value higher at every entry height |
| LowerShape.StmtClean | std/compiler/ir.go:1550-1615 | every statement nets zero on the operand stack, uses slots of the frame only and defines each label once |
| LowerLevels.StmtLevel | std/compiler/ir.go:2393-2491 | jumps go forward in their level, out of the innermost loop or back to its head, and the stack is empty there |
| LowerEnds.StmtDies | std/compiler/ir.go:1341-1349 | after a terminating statement the emitter's position is dead |
| LowerFuncs.LoweringIsGood | std/compiler/ir.go:1196-1360 | the lowering of every accepted function satisfies all the stackifier asks for |
| Literals.CodeConsts | std/compiler/ir.go:1196-1360 | a function whose literals are ints of a machine lowers to code whose constants are words of it |
| LowerFuncs.CallSim | std/compiler/backend_vm.go:867-1335 | one evaluation of a call and the run of its code end alike, or the run is still going |
| LowerFuncs.LoweringPreserves | std/compiler/ir.go:1196-1360 | on each machine the code ends with the words r exactly when evaluation with ints of that machine returns values that are r, whatever uninitialised slots hold |
| LowerFuncs.CompiledPreserves | std/compiler/backend_wasm32.go:371-444 | for a function whose literals are 32-bit ints, the WebAssembly function returns r exactly when 32-bit evaluation does, and never traps; whenever it ends, the caller's shadow-stack pointer is restored and its memory is untouched outside the callee's frame and the scratch words |
| Typed.WellTypedSafe | std/compiler/ir.go:1550-1615 | evaluation of a function that is well-typed for a machine, constants included, never gets stuck |
| Typed.SumAccepted | std/compiler/ir.go:1196-1360 | a function with a loop, a continue and a short circuit is accepted, and well-typed for every machine |
| Typed.TypedPreserves | std/compiler/ir.go:1196-1360 | LoweringPreserves for every accepted and well-typed function, with nothing assumed about evaluation or literals |
| Typed.TypedCompiledPreserves | std/compiler/backend_wasm32.go:371-444 | CompiledPreserves for every accepted function that is well-typed with 32-bit ints: same results, no trap, frame and memory restored |
| Typed.TypedNativePreserves | std/compiler/backend_x64.go:75-449 | NativePreserves for every accepted function that is well-typed with 64-bit ints |
| Departures.DeclReadsNewSlot | std/compiler/ir.go:1795-1858 | in general, a declaration's initialiser is evaluated with the new variable already in scope, holding what its slot held |
| Departures.SelfInitExactly | std/compiler/ir.go:1795-1858 | a shadowing x := e is compiled right, whatever the new slot holds, exactly when the value of e does not depend on that slot; not mentioning x is enough |
| Departures.ShadowedReturns | std/compiler/ir.go:1795-1858 | a whole function whose code returns one more than the new slot held, where it should return one more than its argument |
| Posts.PostRightExactly | std/compiler/ir.go:2446-2485 | of all posts the parser builds for the fragment, behind an expression as init: the loop is compiled right, for every init, test, body, place, machine and state, exactly when executing the post never changes the word of a variable or the variables there are |
| Posts.IdlePosts | std/compiler/ir.go:2463-2485 | no post, an expression and an assignment to the blank name are right |
| Posts.StepPosts | std/compiler/parser.go:1382-1396 | x++ is wrong; x += k and x -= k are right exactly when k is 0 or no int of any target |
| Posts.PlainPosts | std/compiler/parser.go:1391-1396 | x = e, where e does not read x, and x := e are right exactly when e never has a value |
| Posts.DroppedPostDiverges | std/compiler/parser.go:1257-1270 | such a loop with x++ counts to n when evaluated; its code, wherever it stands, is still running after any number of steps |
| Switches.SwitchSim | std/compiler/ir.go:2613-2707 | on every machine the code of a switch ends as trying the arms in order does: the tag is compared with each value left to right, the first match or the place of the default decides, the body runs without the tag, and control meets behind the switch |
| Switches.PickOrChoice | std/compiler/ir.go:2646-2656 | the code takes another arm than the language asks for exactly when the default stands in front of the case that should be taken |
| Switches.OrderRightExactly | std/compiler/ir.go:2646-2656 | for constant cases the code takes the right arm for every tag exactly when no case after the default lists a value that none before it lists |
| Switches.OrderlySwitch | std/compiler/ir.go:2613-2707 | with the default last and no break in an arm the code does what the language asks for |
| SwitchShape.SwitchLevel | std/compiler/ir.go:2613-2707 | every jump of a switch goes forward in its level |
| SwitchShape.SwitchTally | std/compiler/backend_wasm32.go:837-853 | every label of the dispatch is reached by jumps only, with the tag alone on the stack and in the temporary, and what follows works on the tag; the stack is as high after the switch as before |
| SwitchFuncs.LoweringIsTagged | std/compiler/ir.go:1196-1360 | the lowering of every accepted function with a switch satisfies all the stackifier asks for, with the labels of the dispatch as tag labels |
| SwitchFuncs.SwitchPreserves | std/compiler/ir.go:2613-2707 | on each machine the code of a function with a switch ends with r exactly when the call returns r by the rules of the language |
| SwitchFuncs.SwitchCompiled | std/compiler/backend_wasm32.go:837-853 | so does the WebAssembly function, however many cases there are; it never traps and gives frame and memory back |
| SwitchFuncs.TableCompiled | std/compiler/backend_wasm32.go:837-853 | an instance: a function of two parameters that switches over the second returns, as WebAssembly, what its table of constants says |
| SwitchFuncs.TagKeptExactly | std/compiler/backend_wasm32.go:1095-1110 | after a failed test of a constant the label of the next case finds every tag exactly when the constant is not negated: NEG goes through the temporary that holds the tag |
| SwitchNative.SwitchNativePreserves | std/compiler/backend_x64.go:75-449 | a call of the native code of a function with a switch replaces the arguments by r exactly when the call returns r |
| CodeGen.CodeGen.FlushPending | std/compiler/backend.go:280-306 | the emitted code puts the pending value on the memory stack and leaves registers, frame and flags alone; nothing is pending then |
| CodeGen.CodeGen.OpPush | std/compiler/backend.go:328-332 | r is pending, and the emitted code puts an older pending value on the memory stack, so it is not lost |
| CodeGen.CodeGen.OpPop | std/compiler/backend.go:334-356 | from any state the emitted code moves the top of memory stack plus pending register to r, and fails exactly when both are empty |
| CodeGen.CodeGen.OpLoad | std/compiler/backend.go:358-392 | the emitted code reads that top into r and leaves everything in memory |
| CodeGen.CodeGen.OpDrop | std/compiler/backend.go:411-425 | the emitted code removes that top and changes nothing else but the flags |
| CodeGen.CodeGen.CompileInst | std/compiler/backend_x64.go:132-281 | each template, with nothing pending at labels and after jumps |
| CodeGen.CodeGen.CompileOp | std/compiler/backend_x64.go:132-281 | the templates of loads, stores, globals, offsets and calls; OpRefines and the rows of NativeMemory say what they do |
| CodeGen.CodeGen.EmitChain | std/compiler/backend_x64.go:815-853 | emitting all arms and then patching every arm's last jump gives the dispatch chain, on both targets |
| CodeGen.CodeGen.CompileIfaceCall | std/compiler/backend_x64.go:754-854 | saving the arguments, loading type id and receiver, restoring the arguments and the chain make up an interface call |
| CodeGen.CodeGen.CompileFunc | std/compiler/backend_x64.go:75-129 | the parameters are popped into the frame, last first, then the body is generated with the pending register threaded through: the code of prologue and body |
| PendingInsts.LoadsThrough | std/compiler/backend_x64.go:860-875 | a load through any pointer, pending or not: the jump inside the template skips the access for nil, which gives 0 |
| NativeMemory.LoadGives | std/compiler/backend_x64.go:860-875 | the code of a load leaves exactly the byte at the address for size 1, the eight bytes there, least significant first, for every other size, and 0 for nil |
| NativeMemory.StoreGives | std/compiler/backend_x64.go:877-886 | the code of a store changes exactly the byte at the address for size 1, to the low byte of the value, and exactly eight bytes for every other size; a nil address faults |
| NativeMemory.HeaderGives | std/compiler/backend_x64.go:918-936 | length and capacity are the words eight and sixteen bytes into the header, 0 for nil |
| NativeMemory.GlobalBack | std/compiler/backend_x64.go:358-377 | a global that was set is read back, and setting it changes no other global |
| PendingInsts.CallRefines | std/compiler/backend.go:208-216 | a callee finds the whole operand stack in memory, and nothing is pending when it comes back |
| IfaceCalls.IfaceRefines | std/compiler/backend_x64.go:754-854 | an interface call calls the method of the dynamic type on receiver and arguments in order, for any number of methods and anything pending |
| IfaceCalls.CallRightExactly | std/compiler/backend_aarch64.go:733-816 | an interface call is right in every world and state on x86-64, and on ARM64 exactly when there is at most one method |
| PendingRuns.OpRefines | std/compiler/backend_x64.go:132-449 | for every instruction that is no label, jump or return, and any pending register, the lazy code does what the eager step does, or both fail |
| PendingRuns.JumpLands | std/compiler/backend_x64.go:211-220 | all edges into a label agree that nothing is pending there |
| PendingRuns.BranchStep | std/compiler/backend_x64.go:221-238 | a conditional jump reads the flags of its own test |
| PendingRuns.PendingPreserves | std/compiler/backend.go:280-425 | over whole runs, in every world, the generated code ends with r and the same memory, or faults, exactly when the machine that pushes at once does |
| NativeFuncs.LoweringIsProper | std/compiler/ir.go:1196-1360 | the code of every accepted function whose literals are 64-bit ints has distinct labels, a label for every jump, word constants and a return at the end |
| NativeFuncs.ParamsArrive | std/compiler/backend_x64.go:98-108 | arguments pushed left to right arrive in the first slots, and only they leave the caller's stack |
| NativeFuncs.NativePreserves | std/compiler/backend_x64.go:75-449 | a call of the whole native code of such a function, prologue included, replaces the arguments on the caller's stack by r exactly when 64-bit evaluation returns r |
| Pipeline.CompileToWasm | std/compiler/backend_wasm32.go:371-444 | compiler object and emitter object together produce the function that CompiledPreserves is about |
| Pipeline.CompileSwitchToWasm | std/compiler/backend_wasm32.go:371-444 | the same for a function with a switch and SwitchCompiled |
| Pipeline.CompileToNative | std/compiler/backend_x64.go:75-129 | compiler object and generator object together produce the code, prologue included, that NativePreserves runs |
| Dce.IRModule.AddRoot | std/compiler/dce.go:14-25 | a root enters once, and only if it is defined |
| Dce.IRModule.ScanNext | std/compiler/dce.go:58-103 | one name leaves the worklist, its edges enter; the measure decreases |
| Dce.IRModule.EliminateDeadFunctions | std/compiler/dce.go:27-114 | the functions kept, in their order, are those whose names are in the least set with the roots that is closed under edges; every function that runs unnamed is among them |
| Dce.UnnamedKept | std/compiler/dce.go:27-56 | main.main, every name that ends in .init or .init$globals, every method of the table and the three functions backends call by themselves are kept |
| Dce.EnteredKept | std/compiler/dce.go:58-103 | with a function, every function that executing one of its instructions may enter is kept: callees that are no composite builtins, IntToString for Tostring, and those of the two string conversions |
| Dce.KeptNeeded | std/compiler/dce.go:58-114 | and nothing else: what is kept runs unnamed, or something kept may enter it |
| Dce.EliminationPreserves | std/compiler/dce.go:27-114 | with distinct names main, every init function and every method runs the same before and after, step for step |
| Dce.PreservedExactly | std/compiler/dce.go:27-33 | without that assumption a function runs the same exactly when each function its code names is kept or never existed |
| Dce.CoveredPreserves | std/compiler/dce.go:30-33 | if every function that shares its name with a later one calls nothing that one does not, every function kept runs as before |
| Dce.HiddenCallLost | std/compiler/dce.go:30-33 | a function called by nothing but a hidden one of two namesakes is removed, and the hidden one does not run as before |
| Dce.SecondInitHidesFirst | std/compiler/dce.go:30-33 | two init functions of one package: the callee of the first is removed |
| Heap.Heap.EnsureMemory | std/compiler/backend_vm.go:323-339 | the memory is long enough, the old bytes stay, the new ones are zero |
| Heap.Heap.LoadN | std/compiler/backend_vm.go:530-544 | the value whose i-th digit to base 256 is the i-th byte; 0 at nil and where the memory ends before |
| Heap.Heap.StoreN | std/compiler/backend_vm.go:546-554 | the i-th byte is the value shifted right by 8 i bits, modulo 256; every other byte is as it was, or zero where the memory has grown |
| Heap.LoadPart | std/compiler/backend_vm.go:530-554 | loading k bytes from the j-th byte of a stored v gives v shifted right by j bytes, modulo 256 to the k |
| Heap.LoadWritten | std/compiler/backend_vm.go:530-554 | a word that was stored is read back |
| Heap.Heap.Alloc | std/compiler/backend_vm.go:357-381 | a new object above everything allocated so far; an empty request takes one byte |
| Heap.Heap.SlabAlloc | std/compiler/backend_vm.go:383-466 | a new object of the slab's size; it is the cleared head of the free list if there is one, else the page's next slot, else the first of a new page; nothing outside it changes |
| Heap.Heap.SlabFree | std/compiler/backend_vm.go:468-476 | exactly that object is given back; it heads the free list and links to the old head |
| Heap.Heap.StoreInside | std/compiler/backend_vm.go:546-554 | a program that stores inside a live object disturbs no free list and no other object |
| Heap.LiveApart | std/compiler/backend_vm.go:357-476 | at every moment live objects are pairwise disjoint, word-aligned, above the nil guard and inside the memory |
| Heap.DoubleFreeLoops | std/compiler/backend_vm.go:468-476 | freeing a slot that is already on its list makes the list endless |

## Left out

- Memory, pointers, strings, slices, maps, structs, interfaces, globals and calls in the lowering
  and in the WebAssembly part: their meaning depends on runtime functions whose source is not
  part of this model. `for range` is left out with them, because its bound is a slice length.
- Compiler.Compiler.CompileExpr: has literals, names and the integer and boolean operators; calls,
  selectors, indexing and composite literals are left out.
- Compiler.Compiler.CompileStmt: leaves out switch, which CompileSwitch has, range, multi-value assignments, calls and defer.
- Compiler.Compiler.CompileIf: leaves out the form with an init statement, whose variable stays in the
  surrounding scope.
- Compiler.Compiler.CompileFor: leaves out the range form.
- Compiler.Compiler.CompileFunc: leaves out receivers and named results; a bare `return` with named
  results returns nothing.
- Compiler.Compiler.CompileSwitch: the tag is an int or a bool; string tags are left out, and so is the switch
  without a tag, which is a chain of conditional jumps.
- SwitchFuncs.SwitchCompiled: the switch stands among the statements of the function body, not inside a
  loop, an `if` or another switch. Case expressions contain no negation, which TagKeptExactly shows to
  lose the tag on WebAssembly; no arm breaks, since that `break` leaves the loop around the switch; a
  default is last; a literal tag does not stand right in front of a default. 64-bit tags, which have
  a temporary of their own, are left out.
- Division, remainder, shifts and bitwise operators: the VM, native code and WebAssembly differ
  on them by design.
- WasmGen.WasmGen.CompileInst: has the integer, local and return instructions. Narrow and 64-bit locals are
  left out with the type stack `valTypes`, so validation of the emitted code is not modelled.
- StackifyCorrect.FunctionPreserves: memory is a map from word addresses to words; traps for
  addresses beyond the linear memory are not modelled, nor is shadow-stack overflow, nor what
  results beyond the 256-byte scratch area overwrite.
- LowerFuncs.LoweringPreserves: asks that evaluation never meets an operation a type checker
  would reject, since the compiler itself does not check types; `Typed` gives such a checker.
- LowerFuncs.CompiledPreserves: asks that literals are 32-bit ints and NativeFuncs.NativePreserves that
  they are 64-bit ints, as Go asks of a constant of type int; on the VM the evaluator has no value
  for a literal beyond the machine's int, so evaluation that meets one counts as stuck.
- LowerCorrect.BinEnc: has addition, subtraction, multiplication and the comparisons; division,
  remainder, bitwise operators and shifts are left out.
- Posts.PostRightExactly: posts with several variables on the left, and posts that write through
  pointers, fields or indices, are outside the fragment; the blank name is taken to be assigned
  to only, as Go demands.
- Wasm.ReturnSim: asks that the scratch addresses of all results fit 32 bits.
- WasmGen.WasmGen.Pop: popping an empty block stack leaves it empty, where the Go code would
  panic; on well-formed shapes the stack is never empty there.
- CodeGen.CodeGen.CompileOp: addresses of locals and globals, indexing, conversions, composite literals,
  intrinsics and system calls are left out, and the Windows and 32-bit variants.
- CodeGen.CodeGen.OpStore: proved like the others, but no emitter of the source calls it.
- CodeGen.CodeGen.CompileIfaceCall: one method serves both targets, which in Go are two copies; what a
  template does for ARM64 is modelled for interface calls only.
- PendingRuns.OpRefines: indexing, conversions, division, bitwise operators, shifts, boxing and
  composite literals have no template here.
- CodeGen.CodeGen.CompileInst: leaves out the templates of division, bitwise operators and shifts.
- PendingRuns.PendingPreserves: is about runs over the modelled instructions. The eager machine takes
  the native target's view of memory, where bytes are the only narrow width and address 0 faults
  on a store, and a callee is a function of its arguments and the memory.
- Byte encodings of instructions, LEB128, relocation of jumps to labels, module and object-file
  layout: branch targets are labels, instruction counts or structured code, not byte offsets.
  `WasmGen` keeps tokens, not bytes.
- Heap.Heap.SlabAlloc: one method serves both slabs, which in Go are two copies of the same code;
  rounding up uses division where Go masks bits, which is the same for powers of two. Memory
  statistics and the frame stack of VM calls are left out.
- Heap.Heap.SlabFree: asks that addresses fit a word; the code does not look.
- Dce.Honest: data is opaque. A module runs by any rule that enters only functions an instruction
  names, methods of the method table, or the functions backends call by themselves.
- SHA-256 and code signing, ARM64 address materialisation, the parser, build constraints, target
  resolution and relocation blocks: separate algorithms, none of which these results need.
