# Verification of thekernel-ax

A Dafny model of the parts of thekernel-ax that everything else rests on, with proofs of what they promise:

- **the classic BPF compiler** (`thekernel-axcbpf`): verifier, interpreter, x86-64 translator and the independent byte-level validator, down to the bytes that the processor executes;
- **epoch-based reclamation** (`thekernel-axrcu`): every interleaving of readers, writers, drains and CPU lifecycle;
- **the fault broker** (`thekernel-axfault`): linked slots updated in place, and whole histories of what they represent;
- **scheduler arithmetic and queues** (`thekernel-axsched`): round-robin service, runtime conversion, deadline admission and the CFS ready queue.

Run `dafny verify dfyconfig.toml` here to verify everything. All proofs are about the model in these files; no code of the kernel is executed.

## How the model is organised

**BPF.** `Bpf`, `Paths` and `Interpreter` give programs a meaning, and `WordLaws` says in plain arithmetic what that meaning is; `ScratchAnalysis`, `Masks` and `Verifier` say exactly which programs are accepted. `SourceValidation` and `SourceContract` are the translator's and the validator's own acceptors, and the second half of `Interpreter` is the image's own interpreter, each written against raw opcode words from its own source. `Native` is the machine (registers, flags, memory, `Run`). `Decoder` is the validator's own instruction table, `Architecture` is the processor's reading of the same bytes. `Lowering` says which native operations each instruction becomes; `Frame`, `Blocks`, `Simulation`, `Arithmetic`, `Scratch`, `Linkage` and `Soundness` prove that code laid out this way computes the interpreter's value, and `Footprint` that it accesses nothing but its input, context record and stack. `Validator` and `Checker` show that the validator accepts exactly such code. `Emitter`, `Encoding`, `Linking`, `Translation`, `Assembler`, `Translator`, `Sites`, `Sizes` and `Compiler` follow the translator from bytes and patches to the finished image. `Faithful`, `BarePaths`, `BareValues`, `Ambiguity` and `EndToEnd` join the two sides.

**RCU.** `EpochCpu` is one CPU's nested readers, `EpochDomain` the shared words and the steps of readers, writers and drains. A step is one atomic access, with three exceptions: claiming joins the load with its compare-exchange, a failed confirmation joins the second epoch load with clearing the marker, and the release of a writer joins the pending store with both unlocks. Nothing is lost by this, since a CPU that is counted and has no marker blocks every scan, and the pending store is made under the queue lock. The other parts are `EpochSafety`, the invariant, `EpochLaws` what slots and readers hold over whole runs, `RetireQueue` the ring buffer, `WakeEdge`, `WakeDebts`, `WakeRuns` and `LostWake` the reclaim wake-up.

**Fault broker.** `FaultBoard` is what a broker keeps track of, as a state machine of six moves; `FaultHistory` proves facts about whole histories of moves and about several brokers on one credit pool, and `FaultFates` reads a request's whole state off the moves made since it was admitted. `LinkedLists`, `BrokerSlots` and `BrokerMoves` relate the link fields to a board. `BrokerSweeps` and `FaultBroker` are the operations, each proved to be one move or a sequence of moves.

**Scheduler.** `RoundRobinService`, `RuntimeAccounting` and `DeadlineLedger` are the closed arithmetic of the EEVDF scheduler (one tick is 2^32 units). `ReadyOrder`, `CfsQueue`, `CfsScheduler` and `CfsRotation` are the CFS ready queue, with the red-black tree as a list in key order; `CfsLaws` says what its weights, vruntimes and placements mean for the task that runs next, and `CfsFairness` what fair picking achieves over whole runs.

Some predicates are stated under a quantifier with a marker as its trigger (`Look...`, `Glance`, `Position`, `Made`, ...). This hides their definition until a proof asks for it and means the same as the plain statement.

## What the proofs found

- **The validator's table misreads one instruction.** Without a REX prefix `8b 06` loads from `rsi`; the table of the validator reads it as a load from `r14`. `Architecture.TableAgreesExactly` and `Faithful.SameReading` show that this is the only disagreement that matters. On every accepted image and every valid call the processor returns the interpreter's value unless the interpreter's own path gets past the bounds check of an instruction whose native load is bare; where `rsi` is not mapped it returns that value **if and only if** the path does not, and otherwise faults (`BarePaths.AcceptedRunsExactly`). Where `rsi` points to mapped memory outside the frame, the image returns the value of an interpreter whose bare loads yield the word at `rsi` (`BareValues.AcceptedComputes`). `Ambiguity.AcceptedImageCanFault` constructs an accepted image and such a call. The translator never emits the instruction (`Compiler.TranslateProgram` ensures `Clean`), so translated programs are sound without a side condition (`EndToEnd.TranslatedProgramIsSound`).
- **A reclaim wake-up can be missing in two ways.** After a drain returned blocked, and until the next one starts, take any state in which no CPU is in admission or exit code and the front entry is past its grace period. The flag is missing **if and only if** some step forsook the promise and no outermost reader has entered or left since (`WakeRuns.WakeMissingExactly`). The forsaking steps are the refusal of a rolled-back admission and the completion of an admission, each while nobody else will look at the queue. With no reader left at all only the refusal remains (`WakeRuns.WakeLostExactly`, again an if-and-only-if). It cannot happen if no CPU is unregistered while a rolled-back admission waits on it: then the wake is never lost, on any run (`WakeRuns.WakeIsNotLost`). `LostWake.WakeCanBeLost` and `LostWake.WakeWaitsForReader` are reachable runs of the two kinds.
- **The size limit is reachable only for native words.** Images of both packet profiles always fit (`Sizes.PacketImagesFit`); `Sizes.LongestIsTooLarge` gives an accepted program for which the native-word image does not.
- **A spent round-robin slice can swallow a tick.** Charging in pieces equals charging once unless a spent budget without peers is renewed by a first piece of less than a tick (`RoundRobinService.SplitServiceExactly`, and for any number of pieces `RoundRobinService.StepwiseExactly`, both if-and-only-if).
- **Runtime accounting rewrites its conversion residue.** A sample keeps its nanoseconds but replaces the residue, so a sample is exact if and only if it completes a whole extra tick or its kept nanoseconds convert without a residue (`RuntimeAccounting.AccountExactly`); the error stays below one Q32 unit per sample (`RuntimeAccounting.RunDrift`), and `RuntimeAccounting.DriftIsReal` is a run that delivers too much.
- **The CFS floor can move back.** It does so in exactly one case: the only ready fair task, with a vruntime below the floor, is reconfigured; taking it out forgets the floor (`CfsFairness.FloorMovesBack`, an if-and-only-if).

## Model

| member | source | states |
|---|---|---|
| `Bpf.OpcodeRoundTrip` | crates/thekernel-axcbpf/src/program.rs:614-668 | Classifying a 16-bit opcode and encoding the class back gives the opcode again, for supported and unsupported ones |
| `Bpf.OperationRoundTrip` | crates/thekernel-axcbpf/src/program.rs:614-668 | Every classified operation is the one its opcode names, so holding an instruction by operation or by raw word is the same |
| `Bpf.StepStays` | crates/thekernel-axcbpf/src/program.rs:303-456 | A step that does not return goes to one of the instruction's successors, strictly forward, with the machine still in range |
| `Paths.StepAgrees` | crates/thekernel-axcbpf/src/program.rs:303-456 | Two machines that agree on A, X and the slots known to be stored make the same step and agree on one slot more after a store |
| `Paths.SameResult` | crates/thekernel-axcbpf/src/program.rs:554-612 | Along any path, machines that agree on the slots stored so far return the same value |
| `Paths.ScratchIrrelevant` | crates/thekernel-axcbpf/src/translate.rs:617-626 | The result of a scratch-safe program does not depend on what the scratch words hold at the start |
| `ScratchAnalysis.MergedPaths` | crates/thekernel-axcbpf/src/program.rs:607-612 | A slot is stored on all paths through `n` to a successor exactly when the merge keeps its bit |
| `Masks.AndIntersects` | crates/thekernel-axcbpf/src/program.rs:607-612 | The bitwise and of two 16-bit masks has exactly the words that both have |
| `Masks.TestIsMember` | crates/thekernel-axcbpf/src/program.rs:567-579 | Testing a bit of the mask is asking whether the word was stored |
| `ScratchAnalysis.CheckScratch` | crates/thekernel-axcbpf/src/program.rs:554-612 | The single forward pass over 16-bit masks accepts exactly when no control-flow path reads an unset slot, and otherwise names the first pc at which some path does |
| `Verifier.BlameExact` | crates/thekernel-axcbpf/src/program.rs:474-541 | The per-instruction check complains exactly about instructions that could misbehave: unsupported, dividing by zero, out of range |
| `Verifier.VerifyStructure` | crates/thekernel-axcbpf/src/program.rs:464-552 | Accepts exactly the well-formed programs, otherwise returns the first fault in order |
| `Verifier.VerifyProgram` | crates/thekernel-axcbpf/src/program.rs:459-462 | Accepts exactly the acceptable programs (well-formed and scratch-safe) and otherwise returns the one verdict the definition of acceptance determines |
| `SourceValidation.CheckInstruction` | crates/thekernel-axcbpf/src/translate.rs:1370-1420 | The translator's own match over opcode words complains about exactly the instructions the verifier complains about, with the same error |
| `SourceValidation.CheckInitialized` | crates/thekernel-axcbpf/src/translate.rs:1427-1464 | The translator's own pass, with unchecked targets, finds exactly the first read of an unset slot |
| `SourceValidation.ValidateSource` | crates/thekernel-axcbpf/src/translate.rs:1361-1469 | The translator's acceptor reaches that same verdict |
| `Verifier.VerdictUnique` | crates/thekernel-axcbpf/src/translate.rs:1361-1469 | A program has one verdict, so acceptors that reach it agree on acceptance and on the error |
| `Verifier.ProfileExact` | crates/thekernel-axcbpf/src/translate.rs:1192-1230 | The profile check complains exactly when the profile does not serve the instruction |
| `Verifier.ValidateProfile` | crates/thekernel-axcbpf/src/translate.rs:1192-1230 | Accepts exactly programs every instruction of which the profile serves, else blames the first |
| `SourceContract.CheckOperation` | crates/thekernel-axcbpf/src/translation_validate.rs:320-365 | The validator's own check of one instruction apart from its jumps gives the verifier's error |
| `SourceContract.CheckProfile` | crates/thekernel-axcbpf/src/translation_validate.rs:367-404 | The validator's own profile check, with a mask in place of the remainder, gives the translator's error |
| `SourceContract.CheckInitialization` | crates/thekernel-axcbpf/src/translation_validate.rs:412-480 | On any executable program, closed or not: silence means that no path reads an unset slot; a scratch complaint names the first such read; a jump complaint names a jump that leaves the program |
| `SourceContract.ValidateSourceContract` | crates/thekernel-axcbpf/src/translation_validate.rs:271-485 | The raw-byte acceptor accepts exactly the acceptable programs that the profile admits; on those its verdict is the verifier's |
| `Interpreter.ExecuteOne` | crates/thekernel-axcbpf/src/program.rs:316-452 | One iteration over accumulator, index, scratch array and pc is the step function |
| `Interpreter.EvaluateCounted` | crates/thekernel-axcbpf/src/program.rs:303-456 | On every accepted program and input a value is returned, in at most as many steps as there are instructions, with no index out of bounds and no zero divisor |
| `Interpreter.ExecuteSource` | crates/thekernel-axcbpf/src/translate.rs:1505-1623 | One round of the second interpreter, by opcode word: the step of an executable instruction, zero for an unknown one |
| `Interpreter.EvaluateSource` | crates/thekernel-axcbpf/src/translate.rs:1499-1626 | The second interpreter returns the same value on every accepted program and input; neither its arm for unknown opcodes nor its final zero is reached |
| `WordLaws.ShiftsMean` | crates/thekernel-axcbpf/src/program.rs:394-397 | A left shift multiplies by the power of two of the count modulo 32, modulo 2^32; a right shift divides by it |
| `WordLaws.AluMeans` | crates/thekernel-axcbpf/src/program.rs:377-407 | Every arithmetic instruction leaves the number or the bits its operation names (sum, difference, product, quotient, remainder, shifts, and, or, xor), changes nothing but the accumulator, and returns zero exactly for a zero divisor |
| `WordLaws.NegMeans` | crates/thekernel-axcbpf/src/program.rs:398 | A number and its negation add up to zero modulo 2^32 |
| `WordLaws.HeaderMeans` | crates/thekernel-axcbpf/src/program.rs:369-374 | The header-length load leaves four times the low four bits of the byte, or returns zero outside the packet |
| `WordLaws.LoadMeans` | crates/thekernel-axcbpf/src/program.rs:69-78 | A load yields the positional value of its bytes, or none exactly when they are not all inside (or a native word is not aligned) |
| `WordLaws.JumpMeans` | crates/thekernel-axcbpf/src/program.rs:412-444 | A conditional jump goes by the comparison of the numbers, or by whether some bit is in both, and changes no register |
| `WordLaws.SignBitMeans` | crates/thekernel-axcbpf/src/program.rs:525-538 | The test for a negative offset holds exactly in the upper half of the words |
| `WordLaws.AncillaryEncoded` | crates/thekernel-axcbpf/src/ancillary.rs:264-283 | A word names a field exactly when it is the base of the window plus the offset of that field, and then lies in the window |
| `WordLaws.MetadataPlaces` | crates/thekernel-axcbpf/src/ancillary.rs:86-120 | The record of eight words has each field at the place its metadata offset names |
| `WordLaws.ContextPlaces` | crates/thekernel-axcbpf/src/ancillary.rs:229-260 | A context record holds the packet length and the eight metadata words where the native code reads them |
| `WordLaws.AncillaryMeans` | crates/thekernel-axcbpf/src/program.rs:316-348 | Loading from a field's encoded offset yields that field of the metadata record, and zero for input without one |
| `Decoder.DecodeAdvances` | crates/thekernel-axcbpf/src/translation_validate.rs:1364-1945 | A decoded instruction is not empty and lies inside the bytes |
| `Architecture.TableAgreesExactly` | crates/thekernel-axcbpf/src/translation_validate.rs:1372-1945 | Whatever the validator's table decodes, the architecture reads as the same operation and length, except exactly for the misread encodings |
| `Frame.DataRead` | crates/thekernel-axcbpf/src/program.rs:64-95 | A native read inside the input yields the little-endian value of the bytes the interpreter loads |
| `Blocks.CheckedLoad` | crates/thekernel-axcbpf/src/translation_validate.rs:1049-1102 | The bounds test, address computation, fetch and byte swap load what the interpreter loads, or go to the failure block exactly when the interpreter's load fails |
| `Simulation.AbsoluteSimulates` | crates/thekernel-axcbpf/src/translation_validate.rs:1049-1131 | The native block of an absolute load simulates the interpreter's step |
| `Simulation.IndirectSimulates` | crates/thekernel-axcbpf/src/translation_validate.rs:1133-1185 | The same for indirect loads, including offset overflow |
| `Simulation.AncillarySimulates` | crates/thekernel-axcbpf/src/translate.rs:752-761 | The same for metadata loads through the packet context |
| `Simulation.HeaderSimulates` | crates/thekernel-axcbpf/src/translation_validate.rs:659-1047 | The same for the header-length load into X |
| `Arithmetic.AluSimulates` | crates/thekernel-axcbpf/src/translate.rs:857-864 | The same for addition, subtraction, multiplication and the bitwise operations, modulo 2^32 |
| `Arithmetic.DivisionSimulates` | crates/thekernel-axcbpf/src/translate.rs:866-882 | The same for division and remainder, with a zero divisor in X returning zero |
| `Arithmetic.ShiftSimulates` | crates/thekernel-axcbpf/src/translate.rs:884-893 | The same for shifts, by an immediate or by X modulo 32, with X restored |
| `Arithmetic.ControlSimulates` | crates/thekernel-axcbpf/src/translate.rs:895-939 | The same for jumps and returns: the branch goes where the interpreter goes |
| `Scratch.StoreCarries` | crates/thekernel-axcbpf/src/translate.rs:850-855 | A scratch store writes its slot inside the 64-byte frame and keeps saved registers, other slots and everything outside the frame |
| `Scratch.RecallCarries` | crates/thekernel-axcbpf/src/translate.rs:843-848 | A scratch load of a stored slot reads back the interpreter's value |
| `Linkage.PrologueFlow` | crates/thekernel-axcbpf/src/translation_validate.rs:556-638 | From any registers and stack the prologue saves the callee-saved registers and sets up the frame and the input pointers |
| `Linkage.UnwindFlow` | crates/thekernel-axcbpf/src/translation_validate.rs:640-657 | The epilogue restores exactly the caller's registers |
| `Soundness.InstructionCarries` | crates/thekernel-axcbpf/src/translation_validate.rs:659-1288 | Every instruction's native block carries the correspondence between machine and interpreter to the next one |
| `Footprint.RunCut` | crates/thekernel-axcbpf/src/translation_validate.rs:1049-1102 | A run that does not fault when part of memory is unmapped is the same run with it mapped, so it never accessed that part |
| `Soundness.LaidOutCodeIsSound` | crates/thekernel-axcbpf/src/translation_validate.rs:189-263 | Code laid out as the lowering asks returns, on every valid call, the interpreter's value with the stack pointer, callee-saved registers and all memory outside its own frame as they were, and accesses only the input, the context record and its stack |
| `Validator.NoMismatch` | crates/thekernel-axcbpf/src/translation_validate.rs:248-262 | The final target pass finds nothing exactly when every recorded branch lands on the block it should |
| `Validator.AcceptedIsLaidOut` | crates/thekernel-axcbpf/src/translation_validate.rs:189-263 | Accepted bytes are laid out as the lowering asks, at the offsets the validator returns |
| `Validator.LaidOutIsAccepted` | crates/thekernel-axcbpf/src/translation_validate.rs:189-263 | Bytes laid out like that are accepted, with those offsets |
| `Checking.Checker.Next` | crates/thekernel-axcbpf/src/translation_validate.rs:1364-1370 | The cursor moves over exactly one decoded instruction, or reports where decoding fails |
| `Checking.Checker.Expect` | crates/thekernel-axcbpf/src/translation_validate.rs:1290-1362 | A sequence of expectations succeeds exactly when the bytes scan as those patterns, and records the branch targets met |
| `Checking.CheckSource` | crates/thekernel-axcbpf/src/translation_validate.rs:217-221 | The loop over source instructions scans exactly the lowered blocks in order |
| `Checking.CheckTargets` | crates/thekernel-axcbpf/src/translation_validate.rs:248-262 | The loop over recorded targets returns the first that lands elsewhere |
| `Checking.AcceptsExactlyTranslations` | crates/thekernel-axcbpf/src/translation_validate.rs:189-263 | Acceptance of bytes is equivalent to the existence of a layout that translates the program |
| `Checking.ValidateTranslationLayout` | crates/thekernel-axcbpf/src/translation_validate.rs:189-263 | Succeeds exactly for images within the size limit that translate an acceptable, admitted program; the returned offsets are those of every such layout; the two early errors are exact |
| `Faithful.SameReading` | crates/thekernel-axcbpf/src/translation_validate.rs:1469-1475 | For every operation the lowering uses, table and processor read the same, except the bare load, which the processor reads from rsi |
| `Faithful.AcceptedMeansTheSameExactly` | crates/thekernel-axcbpf/src/translation_validate.rs:189-263 | Accepted bytes are a translation for the processor if and only if no bare load occurs |
| `Faithful.AcceptedImageIsSound` | crates/thekernel-axcbpf/src/translation_validate.rs:189-263 | Every accepted image without a bare load, run by the processor on any valid call, returns the interpreter's value, restores registers, stays in its frame and reads nothing but its input, context record and stack |
| `BarePaths.WordBlock` | crates/thekernel-axcbpf/src/translation_validate.rs:1049-1102 | The native block of a word load gets to its load exactly when the interpreter's load succeeds, and otherwise leaves for the failure block |
| `BarePaths.RunPath` | crates/thekernel-axcbpf/src/translation_validate.rs:189-263 | From any instruction on, with bare loads in any blocks: the run faults or returns the interpreter's value, as the interpreter's path passes a bare load or does not |
| `BarePaths.AcceptedRunsExactly` | crates/thekernel-axcbpf/src/translation_validate.rs:189-263 | For every accepted image and valid call: the interpreter's value is returned if its path passes the bounds check of no bare load; where rsi is unmapped exactly then, and otherwise the processor faults |
| `BareValues.UnmarkedPath` | crates/thekernel-axcbpf/src/translation_validate.rs:1469-1475 | On a path that passes no bare load, the interpreter whose bare loads read elsewhere is the ordinary one |
| `BareValues.AcceptedComputes` | crates/thekernel-axcbpf/src/translation_validate.rs:189-263 | For every accepted image and valid call with rsi pointing to mapped memory outside the frame: the value of the interpreter whose bare loads yield the word at rsi |
| `Ambiguity.AcceptedImageCanFault` | crates/thekernel-axcbpf/src/translation_validate.rs:1469-1475 | A concrete accepted image faults on a concrete valid call, for every number of steps |
| `Emitter.BytesRoundTrip` | crates/thekernel-axcbpf/src/translate.rs:1000-1002 | An emitted 32-bit immediate reads back as itself |
| `Encoding.DecodeLocal` | crates/thekernel-axcbpf/src/translation_validate.rs:1372-1945 | Decoding depends only on the instruction's own bytes and moves with them |
| `Encoding.PrologueEncoded` | crates/thekernel-axcbpf/src/translate.rs:617-652 | The emitted prologue bytes decode to the expected prologue in every profile |
| `Encoding.EpilogueEncoded` | crates/thekernel-axcbpf/src/translate.rs:946-950 | The emitted epilogue bytes decode to the expected epilogue |
| `Encoding.EmittedIsExpected` | crates/thekernel-axcbpf/src/translate.rs:654-893 | The bytes emitted for every instruction in every profile decode to the operations the validator expects |
| `Linking.BlockPlaced` | crates/thekernel-axcbpf/src/translate.rs:952-998 | A block with its displacements filled in is placed: each instruction decodes, each branch goes to its target |
| `Translation.ImageLaidOut` | crates/thekernel-axcbpf/src/translate.rs:507-577 | The whole linked image of any program is laid out as the validator asks and has no bare load |
| `Assembly.PatchedIsLinked` | crates/thekernel-axcbpf/src/translate.rs:952-998 | Overwriting the recorded patch sites one after the other gives exactly the bytes with all displacements linked |
| `Assembly.Assembler.Append` | crates/thekernel-axcbpf/src/translate.rs:925-939 | Appends a piece with a zero displacement and records its patch at the right place |
| `Assembly.Assembler.EmitInstruction` | crates/thekernel-axcbpf/src/translate.rs:654-728 | Appends exactly the instruction's pieces, patches and branch site |
| `Assembly.Assembler.ApplyPatches` | crates/thekernel-axcbpf/src/translate.rs:959-974 | Fails exactly when some target is missing or out of 32-bit reach, else patches every site |
| `Assembly.Assembler.CheckSites` | crates/thekernel-axcbpf/src/translate.rs:975-994 | Succeeds exactly when every recorded branch site holds the displacements of its two targets |
| `Translator.EmitBlocks` | crates/thekernel-axcbpf/src/translate.rs:537-547 | The emission loop builds all blocks, the instruction map and the boundaries |
| `Translator.EmittedStaysInside` | crates/thekernel-axcbpf/src/translate.rs:959-974 | No patch of an accepted program names a source position outside it |
| `Sites.AllSites` | crates/thekernel-axcbpf/src/translate.rs:895-923 | Every recorded branch site is a real conditional or direct branch to its two targets |
| `Sites.SitesOfJumps` | crates/thekernel-axcbpf/src/translate.rs:1118-1190 | There is one branch site per jump of the program, in order |
| `Sizes.BlockSize` | crates/thekernel-axcbpf/src/translate.rs:654-893 | Every instruction emits at least one byte and at most the profile's maximum |
| `Sizes.PacketImagesFit` | crates/thekernel-axcbpf/src/translate.rs:18-18 | Images of every well-formed program fit the size limit in both packet profiles |
| `Sizes.LongestIsTooLarge` | crates/thekernel-axcbpf/src/translate.rs:554-556 | A concrete accepted native-word program exceeds the size limit |
| `Compiler.ValidateImage` | crates/thekernel-axcbpf/src/translate.rs:1023-1190 | Accepts metadata exactly when map, boundaries and branch sites describe the image |
| `Compiler.Validate` | crates/thekernel-axcbpf/src/translate.rs:476-501 | Accepts exactly images whose source is accepted, whose bytes translate it, and whose metadata fits |
| `Compiler.BuiltImageOk` | crates/thekernel-axcbpf/src/translate.rs:1023-1190 | The image that translation builds passes that validation |
| `Compiler.TranslateProgram` | crates/thekernel-axcbpf/src/translate.rs:507-577 | Succeeds exactly for acceptable, admitted programs whose image fits; the size error is exact; `InvalidImage` is never returned; the result is valid and free of bare loads |
| `EndToEnd.ImageIsSound` | crates/thekernel-axcbpf/src/translate.rs:476-501 | A valid image without bare loads computes its program's value on the processor and accesses only its own memory |
| `EndToEnd.TranslatedProgramIsSound` | crates/thekernel-axcbpf/src/translate.rs:507-577 | What the translator produces computes the interpreter's value on the processor, on every valid call, and accesses only input, context record and stack |
| `EpochCpu.StepOk` | crates/thekernel-axrcu/src/lib.rs:364-464 | Every atomic step of a CPU's nested admissions and exits keeps its depth, marker and held objects consistent |
| `EpochSafety.SwapProtects` | crates/thekernel-axrcu/src/lib.rs:508-555 | When a writer swaps the slot, objects that readers hold stay protected by the writer's own count |
| `EpochSafety.CommitProtects` | crates/thekernel-axrcu/src/lib.rs:508-555 | Committing the retired object moves that protection into the queue |
| `EpochSafety.PopProtects` | crates/thekernel-axrcu/src/lib.rs:627-648 | A completed scan, made one CPU at a time while CPUs move, never releases an object that a reader holds |
| `EpochSafety.NextInv` | crates/thekernel-axrcu/src/lib.rs:304-719 | Every step of every reader, writer, drain and lifecycle operation keeps the domain invariant |
| `EpochSafety.RunInv` | crates/thekernel-axrcu/src/lib.rs:304-719 | The invariant holds in every state of every interleaving |
| `EpochSafety.LoadedObjectsAreOwned` | crates/thekernel-axrcu/src/lib.rs:872-889 | In every state of every run an object loaded under an open guard has an owner: a slot, a writer in the middle of its swap, or the retire queue |
| `EpochSafety.BlockedFrontBlocksAll` | crates/thekernel-axrcu/src/lib.rs:665-695 | A CPU that blocks the front of the queue blocks every entry |
| `EpochSafety.QueueIsExact` | crates/thekernel-axrcu/src/lib.rs:493-555 | Entries plus reservations never exceed the capacity, epochs strictly increase, the queue is what was retired and not yet dropped, and the hint is the front epoch whenever the lock is free |
| `EpochSafety.RetiredOnce` | crates/thekernel-axrcu/src/lib.rs:580-625 | Only a commit retires an object, exactly the one its writer took out; only a completed scan drops one |
| `EpochSafety.AdmissionConsistent` | crates/thekernel-axrcu/src/lib.rs:364-464 | The depth never underflows, a nested admission finds its outer marker, an idle CPU holds nothing |
| `EpochLaws.SlotsAreAsked` | crates/thekernel-axrcu/src/lib.rs:508-625 | In every state of every run each slot holds what the last swap on it was asked to put there, and the open writer works on the last request |
| `EpochLaws.SlotHoldsAsked` | crates/thekernel-axrcu/src/lib.rs:508-602 | From a swap to the next one on the same slot, the slot holds exactly the replacement that was asked for, none after a clear |
| `EpochLaws.SlotKept` | crates/thekernel-axrcu/src/lib.rs:508-625 | Steps that are not a swap on a slot leave it alone |
| `EpochLaws.QueuedIsNowhereElse` | crates/thekernel-axrcu/src/lib.rs:580-625 | When no object is published twice, an object in the retire queue is in no slot and in no other entry |
| `EpochLaws.TakenOutForGood` | crates/thekernel-axrcu/src/lib.rs:580-625 | Under the same condition an object that was swapped out is never in a slot again |
| `EpochLaws.NoLateLoad` | crates/thekernel-axrcu/src/lib.rs:872-889 | Nor does any reader that does not hold it come to hold it |
| `EpochLaws.LoadedIsKept` | crates/thekernel-axrcu/src/lib.rs:872-889 | A reader that loads from a slot holds its object, and the object has an owner, until that reader's outermost guard leaves |
| `EpochLaws.AdmittedNow` | crates/thekernel-axrcu/src/lib.rs:364-448 | An admission succeeds exactly when the epoch did not change in between, and then no writer is closing or has swapped |
| `RetireRing.RetireQueue.Reserve` | crates/thekernel-axrcu/src/lib.rs:193-203 | Succeeds exactly when entries plus reservations are below the capacity |
| `RetireRing.RetireQueue.CancelReservation` | crates/thekernel-axrcu/src/lib.rs:205-211 | Gives one reservation back, contents unchanged |
| `RetireRing.RetireQueue.Commit` | crates/thekernel-axrcu/src/lib.rs:213-220 | Uses one reservation to append an entry to the sequence the ring represents |
| `RetireRing.RetireQueue.FrontEntry` | crates/thekernel-axrcu/src/lib.rs:222-228 | Returns the oldest entry, if any |
| `RetireRing.RetireQueue.Pop` | crates/thekernel-axrcu/src/lib.rs:230-242 | Removes the oldest entry, wrapping around the array |
| `WakeEdge.NextTargets` | crates/thekernel-axrcu/src/lib.rs:466-486 | No look at the domain, on any run, is for an entry younger than the front |
| `WakeDebts.ReaderPasses` | crates/thekernel-axrcu/src/lib.rs:364-464 | A reader step passes every debt of a look on, unless it completes that CPU's admission or refuses that frame |
| `WakeDebts.PromiseKept` | crates/thekernel-axrcu/src/lib.rs:450-486 | Every step until the next drain: a standing promise is broken exactly by a refusal or admission that leaves nobody owing, a broken one is restored exactly by an outermost reader entering or leaving |
| `WakeRuns.BlockedEnters` | crates/thekernel-axrcu/src/lib.rs:653-719 | A drain that finds the front blocked, with no other drain working on the queue, enters the stage in which a look is owed |
| `WakeRuns.PromiseOnRun` | crates/thekernel-axrcu/src/lib.rs:450-486 | On every run until the next drain the promise stands exactly as long as it was not forsaken |
| `WakeRuns.WakeMissingExactly` | crates/thekernel-axrcu/src/lib.rs:466-486 | With no CPU in admission or exit code and the front past its grace period, the flag is missing if and only if a step forsook the promise and no outermost reader has come or gone since |
| `WakeRuns.WakeLostExactly` | crates/thekernel-axrcu/src/lib.rs:364-486 | With no reader left, the flag is missing if and only if a rolled-back admission was refused while nobody else owed a look and no reader has come or gone since |
| `WakeRuns.WakeIsNotLost` | crates/thekernel-axrcu/src/lib.rs:653-719 | On every run on which no CPU is unregistered while a rolled-back admission waits on it: after a drain found its front blocked and until the next, once no reader is left the flag is set, and an edge was signalled since it was last clear |
| `LostWake.WakeCanBeLost` | crates/thekernel-axrcu/src/lib.rs:364-448 | A reachable run in which the refusal leaves a reclaimable front without flag and without edge |
| `LostWake.WakeWaitsForReader` | crates/thekernel-axrcu/src/lib.rs:364-448 | A reachable run in which an admission that completes leaves the front past its grace period, the flag clear, and the edge to that reader's exit |
| `EpochLaws.EdgesExactly` | crates/thekernel-axrcu/src/lib.rs:466-719 | The wake flag is set exactly by the steps that claim an edge and cleared exactly by those that acknowledge one; the number of wakes grows exactly when it goes from clear to set |
| `EpochLaws.WakeAfterRearm` | crates/thekernel-axrcu/src/lib.rs:653-719 | If a drain found the front blocked and the domain later comes to rest without another drain, on a run that unregisters no CPU with a rolled-back admission, the drain cleared the flag in between and a new wake was published after that |
| `EpochLaws.EmptiedIsQuiet` | crates/thekernel-axrcu/src/lib.rs:682-695 | On every run, a drain that empties the queue lets go of it with the pending word, the front hint and the wake flag all clear |
| `LinkedLists.Removed` | crates/thekernel-axfault/src/lib.rs:1368-1392 | Redirecting the two neighbours of an element threads exactly the rest of the list |
| `LinkedLists.Appended` | crates/thekernel-axfault/src/lib.rs:955-966 | Pointing the last element to a new one threads the list with it appended |
| `FaultBoard.MoveKeeps` | crates/thekernel-axfault/src/lib.rs:836-1541 | Every move keeps: each live waiter on exactly one request's list, no live request without waiters, and the queue holding exactly the pending requests in admission order |
| `FaultHistory.HistoryWellFormed` | crates/thekernel-axfault/src/lib.rs:836-1541 | So does every history |
| `FaultHistory.ResultIsFixed` | crates/thekernel-axfault/src/lib.rs:1088-1182 | While a token is valid, a request's result never changes once it is fixed |
| `FaultHistory.ClaimedOnce` | crates/thekernel-axfault/src/lib.rs:1005-1028 | No request is claimed twice, through completions, releases and cancellations |
| `FaultHistory.StaleForever` | crates/thekernel-axfault/src/lib.rs:1328-1350 | Once a request is reclaimed, its token never names anything again, however the slot is reused |
| `FaultHistory.ReadyIsKept` | crates/thekernel-axfault/src/lib.rs:1447-1466 | A ready waiter stays ready with the same result until it leaves |
| `FaultHistory.ReleasedExactly` | crates/thekernel-axfault/src/lib.rs:1394-1466 | The number of waiters that a completion or release reports is the number that became ready, and nothing else makes or unmakes readiness |
| `FaultHistory.CreditsExact` | crates/thekernel-axfault/src/lib.rs:1514-1528 | A move changes the number of live requests by exactly the credits it takes or gives back |
| `FaultHistory.PoolConserved` | crates/thekernel-axfault/src/lib.rs:136-170 | In every interleaving of brokers on one pool, with taking a credit, inserting the request, giving a credit back and closing a broker as separate steps, live credits equal what the brokers hold and never exceed the capacity |
| `FaultHistory.NeverUnderflows` | crates/thekernel-axfault/src/lib.rs:153-170 | No step gives back more credits than are live |
| `FaultHistory.CreditsAreRequests` | crates/thekernel-axfault/src/lib.rs:136-170 | Whenever no operation is half done, live credits equal all live requests |
| `FaultHistory.UniqueForever` | crates/thekernel-axfault/src/lib.rs:836-852 | At most one open or deferred request exists per handler and key |
| `FaultFates.DeferredStaysQueued` | crates/thekernel-axfault/src/lib.rs:1402-1411 | A deferred completion keeps the queue and its order, fixes the given result without showing it, and changes nothing but the request's state |
| `FaultFates.ClaimKeepsResult` | crates/thekernel-axfault/src/lib.rs:1005-1028 | A claim ends the wait and keeps the result that was fixed before |
| `FaultFates.Fate` | crates/thekernel-axfault/src/lib.rs:836-1541 | In every history an admitted request waits for delivery exactly if it was neither claimed nor made visible, has a result exactly if it was completed with it, and is visible exactly if it was made so |
| `FaultFates.StaysClaimable` | crates/thekernel-axfault/src/lib.rs:1005-1182 | So every admitted request can be claimed until it is claimed, made visible or reclaimed with its last waiter; completed until its result is fixed; released from then until it is visible |
| `FaultFates.PhaseTold` | crates/thekernel-axfault/src/lib.rs:1402-1466 | And its phase is the one that those three facts name |
| `BrokerSlots.UnlinkRemoves` | crates/thekernel-axfault/src/lib.rs:1368-1392 | Unlinking a queued slot leaves the link fields, head and tail of exactly the remaining queue |
| `BrokerSlots.PartedList` | crates/thekernel-axfault/src/lib.rs:1468-1495 | Unlinking a waiter leaves the link fields of exactly the remaining list |
| `BrokerMoves.AdmissionShows` | crates/thekernel-axfault/src/lib.rs:940-988 | The slot updates of a new request represent the board after an admission |
| `BrokerMoves.JoiningShows` | crates/thekernel-axfault/src/lib.rs:967-988 | The slot updates of one more waiter represent the board after a join |
| `BrokerMoves.VisibleMove` | crates/thekernel-axfault/src/lib.rs:1394-1466 | A request made visible to all its waiters represents the board in which a waiter is ready with c exactly when its request is visible with c |
| `BrokerMoves.PartingShows` | crates/thekernel-axfault/src/lib.rs:1468-1528 | The slot updates of a departing waiter, with or without its request, represent the board after it |
| `BrokerSweeps.SweepStep` | crates/thekernel-axfault/src/lib.rs:1108-1132 | One more selected slot of a sweep: history, states, counts and released waiters stay exact |
| `BrokerSweeps.SweepsDetach` | crates/thekernel-axfault/src/lib.rs:1196-1208 | Completing and then releasing everything of a handler is one history, with the totals of requests completed, requests released and waiters made ready |
| `BrokerSweeps.DetachedIsFinal` | crates/thekernel-axfault/src/lib.rs:1196-1208 | Afterwards no request of the handler is open or deferred, earlier deferred results are kept, and open ones have the given result |
| `FaultBroker.RequestCreditPool.TryAcquire` | crates/thekernel-axfault/src/lib.rs:136-151 | Takes a credit exactly when one is left |
| `FaultBroker.Broker.FindMatch` | crates/thekernel-axfault/src/lib.rs:837-843 | Finds a request with this handler and key that is not visible, exactly when there is one |
| `FaultBroker.Broker.ChooseRequestSlot` | crates/thekernel-axfault/src/lib.rs:1292-1308 | The lowest free slot with generations left, or exactly which shortage there is |
| `FaultBroker.Broker.ChooseWaiterSlot` | crates/thekernel-axfault/src/lib.rs:1310-1326 | The same for waiters |
| `FaultBroker.Broker.RequestIndex` | crates/thekernel-axfault/src/lib.rs:1328-1339 | A token is accepted exactly when it names a live request of this broker in its generation |
| `FaultBroker.Broker.WaiterIndex` | crates/thekernel-axfault/src/lib.rs:1341-1352 | The same for waiters |
| `FaultBroker.Broker.Admit` | crates/thekernel-axfault/src/lib.rs:836-997 | Succeeds with one admission or join, the lowest slots and the next generations; each error is returned exactly in its case; `InconsistentState` never; a refusal changes nothing; credits follow live requests |
| `FaultBroker.Broker.UnlinkPending` | crates/thekernel-axfault/src/lib.rs:1368-1392 | Takes a slot out of the queue, fixing neighbours, head and tail |
| `FaultBroker.Broker.ClaimNext` | crates/thekernel-axfault/src/lib.rs:1005-1028 | Delivers the oldest pending request of the handler, or none exactly when it has none; nothing else moves |
| `FaultBroker.Broker.PublishWaiters` | crates/thekernel-axfault/src/lib.rs:1447-1466 | Makes exactly the waiters on the list ready and counts them |
| `FaultBroker.Broker.CompleteSlot` | crates/thekernel-axfault/src/lib.rs:1394-1427 | Completes an open request in the way its state and the visibility ask for (`FaultFates.MoveFate` says what that is), otherwise does nothing |
| `FaultBroker.Broker.ReleaseSlot` | crates/thekernel-axfault/src/lib.rs:1429-1445 | Makes a deferred result visible as it is, otherwise does nothing |
| `FaultBroker.Broker.Complete` | crates/thekernel-axfault/src/lib.rs:1088-1105 | Errors are exact; success fixes the result and reports exactly the waiters that became ready |
| `FaultBroker.Broker.CompleteWhere` | crates/thekernel-axfault/src/lib.rs:1107-1132 | Completes exactly the open requests that are picked, as one history, with exact totals |
| `FaultBroker.Broker.Release` | crates/thekernel-axfault/src/lib.rs:1151-1161 | Errors are exact; releasing a visible request again does nothing |
| `FaultBroker.Broker.ReleaseWhere` | crates/thekernel-axfault/src/lib.rs:1163-1184 | Releases exactly the deferred requests that are picked, as one history, with exact totals |
| `FaultBroker.Broker.DetachHandler` | crates/thekernel-axfault/src/lib.rs:1196-1208 | Makes every live request of the handler terminal and visible; the three totals are exactly the requests that were open, those that were deferred, and the waiters that became ready |
| `FaultBroker.Broker.Observe` | crates/thekernel-axfault/src/lib.rs:1210-1219 | A waiter sees its request's result exactly when it is visible |
| `FaultBroker.Broker.RemoveWaiter` | crates/thekernel-axfault/src/lib.rs:1468-1512 | Removes the waiter, reclaims the request exactly when it was the last, returns its credit, and never finds an inconsistency |
| `FaultBroker.Broker.ReclaimRequest` | crates/thekernel-axfault/src/lib.rs:1514-1528 | Takes the request out of the queue if it waits there, clears it and gives its credit back |
| `FaultBroker.Broker.CancelWaiter` | crates/thekernel-axfault/src/lib.rs:1221-1239 | Only a stale or foreign token fails; other waiters are not affected |
| `FaultBroker.Broker.TakeCompletion` | crates/thekernel-axfault/src/lib.rs:1241-1262 | Consumes a result exactly when it is visible; the errors are exact and change nothing |
| `RoundRobinService.RoundRobinTask.Service` | crates/thekernel-axsched/src/eevdf.rs:4391-4469 | The staged transaction, with its two errors exact and without effect |
| `RoundRobinService.OnlyAmountMatters` | crates/thekernel-axsched/src/eevdf.rs:4391-4469 | The outcome depends on the Q32 amount, not on its split into ticks and fraction |
| `RoundRobinService.ChargeCountsDown` | crates/thekernel-axsched/src/eevdf.rs:4391-4469 | Without peers a running budget is a clock that counts down and restarts at the slice length |
| `RoundRobinService.ChargeWithPeers` | crates/thekernel-axsched/src/eevdf.rs:4391-4469 | With peers a budget is spent exactly when the boundary is reached, and stays spent |
| `RoundRobinService.SplitServiceExactly` | crates/thekernel-axsched/src/eevdf.rs:4391-4469 | Charging in two pieces equals charging the sum, if and only if no renewal of a spent budget swallows the completed tick |
| `RoundRobinService.StepwiseEqualsBulk` | crates/thekernel-axsched/src/eevdf.rs:4391-4469 | From a running budget any number of charges gives the same ticks, fraction and reschedule flag as one charge of the sum, through any number of renewals |
| `RoundRobinService.StepwiseExactly` | crates/thekernel-axsched/src/eevdf.rs:4391-4469 | From any budget, any number of charges equals one charge of the sum, if and only if the first nonzero piece and the rest swallow no tick |
| `RuntimeAccounting.RuntimeAccount.Account` | crates/thekernel-axsched/src/eevdf.rs:4587-4672 | Fails exactly on residues that do not belong to the period (or when the charge fails) and then changes nothing; otherwise charges the whole ticks and keeps the residues |
| `RuntimeAccounting.RuntimeAccount.Settle` | crates/thekernel-axsched/src/eevdf.rs:4484-4553 | Delivers what the residues are worth; the check for more than one whole tick never fails |
| `RuntimeAccounting.SettleConserves` | crates/thekernel-axsched/src/eevdf.rs:4484-4553 | Settlement conserves exactly and leaves a residue below the period |
| `RuntimeAccounting.AccountDrift` | crates/thekernel-axsched/src/eevdf.rs:4587-4672 | A sample is off by exactly what it rewrites, which is less than one Q32 unit |
| `RuntimeAccounting.AccountExactly` | crates/thekernel-axsched/src/eevdf.rs:4623-4669 | A sample is exact if and only if it completes a whole extra tick or the kept nanoseconds convert without a residue |
| `RuntimeAccounting.RunDrift` | crates/thekernel-axsched/src/eevdf.rs:4484-4672 | In every run with one period both residues stay below it, and the drift stays below one Q32 unit per sample |
| `RuntimeAccounting.SettledRun` | crates/thekernel-axsched/src/eevdf.rs:4484-4672 | A settled run has delivered elapsed time at the Q32 rate within one unit per sample and one more |
| `RuntimeAccounting.RunChargesBudget` | crates/thekernel-axsched/src/eevdf.rs:4391-4672 | The budget ends where a single charge of everything delivered would have put it |
| `RuntimeAccounting.DriftIsReal` | crates/thekernel-axsched/src/eevdf.rs:4623-4669 | A run that delivers more than its share |
| `DeadlineLedger.UtilizationCovers` | crates/thekernel-axsched/src/eevdf.rs:1349-1358 | The charge covers the exact share and exceeds it by less than one part |
| `DeadlineLedger.UtilizationLeast` | crates/thekernel-axsched/src/eevdf.rs:1349-1358 | No smaller charge covers the share |
| `DeadlineLedger.WholeProcessor` | crates/thekernel-axsched/src/eevdf.rs:1349-1358 | A charge is never more than the whole processor, and is the whole processor when the runtime is the period |
| `DeadlineLedger.DeadlineDomain.Replace` | crates/thekernel-axsched/src/eevdf.rs:121-144 | Whatever other queues put into the ledger between its attempts, the retry loop exchanges a reservation exactly when the result fits the ledger as it then stands, otherwise returns the exact error and changes nothing |
| `DeadlineLedger.DeadlineQueue.Admit` | crates/thekernel-axsched/src/eevdf.rs:1360-1382 | Under the same contention, succeeds exactly when both ledgers have room; a refusal by either leaves the queue as it was and the domain as the others left it; an empty queue whose domain has the whole processor free admits every valid configuration |
| `DeadlineLedger.DeadlineQueue.Release` | crates/thekernel-axsched/src/eevdf.rs:1384-1397 | Gives a reservation back to both ledgers, whatever the others do meanwhile |
| `DeadlineLedger.NextInv` | crates/thekernel-axsched/src/eevdf.rs:99-144 | Every step of an interleaved admission or release keeps both ledgers equal to the rounded-up utilisations held, and within their caps |
| `DeadlineLedger.RunInv` | crates/thekernel-axsched/src/eevdf.rs:1349-1397 | So in every state of every interleaving |
| `DeadlineLedger.NeverStuck` | crates/thekernel-axsched/src/eevdf.rs:1384-1397 | A release never finds its reservation missing, and a refund never underflows |
| `DeadlineLedger.RefusalKeepsLedger` | crates/thekernel-axsched/src/eevdf.rs:1360-1369 | In any interleaving, no step of a refused admission, from its reservation to its refund, changes the domain ledger |
| `DeadlineLedger.RefusalRestores` | crates/thekernel-axsched/src/eevdf.rs:1360-1369 | In any interleaving, after a refused admission the queue is exactly as it was before its reservation |
| `DeadlineLedger.QueueNeverOverloaded` | crates/thekernel-axsched/src/eevdf.rs:1371-1382 | In every interleaving the exact rational sum of runtime over period of each queue is at most one |
| `DeadlineLedger.DomainNeverOverloaded` | crates/thekernel-axsched/src/eevdf.rs:99-144 | And that of all queues at most the domain's capacity |
| `ReadyOrder.DequeBack` | crates/thekernel-axsched/src/cfs.rs:779-794 | A task with the largest sequence of its priority goes to the back of that priority's queue |
| `ReadyOrder.DequeFront` | crates/thekernel-axsched/src/cfs.rs:779-794 | One with the smallest goes to the front |
| `ReadyOrder.DequeTaken` | crates/thekernel-axsched/src/cfs.rs:1074-1120 | Taking a task out changes only its own queue |
| `ReadyOrder.FoundAtBound` | crates/thekernel-axsched/src/cfs.rs:1089-1103 | A linked task is found at the lower bound of its own key |
| `CfsQueue.TicketFresh` | crates/thekernel-axsched/src/cfs.rs:722-730 | A new ordering sequence was never handed out before and lies beyond all that were |
| `CfsQueue.KeysDistinct` | crates/thekernel-axsched/src/cfs.rs:722-794 | Linked tasks have pairwise distinct keys |
| `CfsQueue.NewlyQueuedOk` | crates/thekernel-axsched/src/cfs.rs:796-884 | Queueing keeps the invariant (a task is linked exactly when its owner word names the scheduler) and changes one queue at one end |
| `CfsQueue.CommittedOk` | crates/thekernel-axsched/src/cfs.rs:932-982 | So does committing a reservation; the order among the others does not change |
| `CfsQueue.InsertTaken` | crates/thekernel-axsched/src/cfs.rs:1008-1019 | Inserting a removed task under its old key restores the exact order |
| `CfsQueue.OthersKeep` | crates/thekernel-axsched/src/cfs.rs:233-273 | What other schedulers and unqueued configuration may do keeps the invariant |
| `CfsQueue.QueueOfPriority` | crates/thekernel-axsched/src/cfs.rs:539-541 | The queue of a priority holds exactly the ready real-time tasks that have it |
| `CfsQueue.RanksAgree` | crates/thekernel-axsched/src/cfs.rs:1021-1038 | An earlier queue waits exactly when a ready real-time task has a strictly larger priority, and the task's own queue exactly when a peer is ready |
| `CfsQueue.ForemostIsHighest` | crates/thekernel-axsched/src/cfs.rs:539-541 | The foremost queue is the one of the largest ready priority |
| `CfsScheduler.Scheduler.NextSequence` | crates/thekernel-axsched/src/cfs.rs:722-794 | Sequences are never reused; exhaustion is reported without a change |
| `CfsScheduler.Scheduler.Enqueue` | crates/thekernel-axsched/src/cfs.rs:796-884 | Errors are exact and leave task and scheduler as they were; otherwise the task joins its own queue at the right end, with the words its class and action give it |
| `CfsScheduler.Scheduler.Reserve` | crates/thekernel-axsched/src/cfs.rs:887-925 | Claims the task and one sequence without linking it; failures change nothing |
| `CfsScheduler.Scheduler.Cancel` | crates/thekernel-axsched/src/cfs.rs:623-632 | Gives the task back; no queue changes |
| `CfsScheduler.Scheduler.Commit` | crates/thekernel-axsched/src/cfs.rs:932-982 | Only a foreign reservation is refused; the task enters its queue where its sequence puts it, with the words and vruntime of a new task, and the floor follows |
| `CfsScheduler.Scheduler.SetParams` | crates/thekernel-axsched/src/cfs.rs:1044-1072 | Errors are exact and restore the exact prior state, order and floor although the task was retuned before; on success a linked task moves to the back of its new queue with the words, vruntime, slice and floor its parameters give |
| `CfsScheduler.Scheduler.Reconfigure` | crates/thekernel-axsched/src/cfs.rs:984-1072 | Unlinks, retunes, draws a sequence and links again; when the sequence is exhausted nothing has changed |
| `CfsScheduler.Scheduler.Restore` | crates/thekernel-axsched/src/cfs.rs:1008-1019 | Writing back the snapshot's fields and the owner of a retuned task gives every word, the tree and the floor as they were |
| `CfsScheduler.Scheduler.FindLinked` | crates/thekernel-axsched/src/cfs.rs:1089-1103 | The cursor loop always finds a linked task |
| `CfsScheduler.Scheduler.RemoveOwned` | crates/thekernel-axsched/src/cfs.rs:1074-1120 | The answer is determined by the owner word, `InconsistentState` is never returned, and only the task's own queue changes |
| `CfsScheduler.Scheduler.PickNext` | crates/thekernel-axsched/src/cfs.rs:1155-1169 | Picks the head of the foremost queue, or none exactly when nothing is ready; while a real-time task is ready the picked task is one, and no ready one has a larger priority |
| `CfsScheduler.Scheduler.TaskTick` | crates/thekernel-axsched/src/cfs.rs:1194-1243 | A real-time tick asks to reschedule exactly when a ready real-time task has a larger priority, or a spent round-robin task has a ready peer of its priority; a fair tick does at once when any real-time task is ready, else by vruntime and granularity; no queue changes |
| `CfsScheduler.Scheduler.TickFair` | crates/thekernel-axsched/src/cfs.rs:1224-1242 | A fair tick advances the vruntime and asks to reschedule exactly beyond the granularity window |
| `CfsRotation.BeatKeeps` | crates/thekernel-axsched/src/cfs.rs:1155-1219 | One tick of the scheduler, with the requeueing and picking it asks for: the slice counts down, the last tick of a slice and only that one asks to reschedule if a peer waits, and the next task starts with a full slice |
| `CfsRotation.TurnRotates` | crates/thekernel-axsched/src/cfs.rs:1155-1177 | Queueing the spent running task and picking the next turns the circle by one and gives the next a full slice |
| `CfsRotation.CyclicOrder` | crates/thekernel-axsched/src/cfs.rs:1155-1219 | On every run of scheduler ticks with no higher work, tick j of n round-robin tasks of one priority belongs to task (j / quantum) mod n, and asks to reschedule exactly when it ends a quantum and there is a peer |
| `CfsLaws.ValidatedMeans` | crates/thekernel-axsched/src/cfs.rs:91-118 | Parameters are accepted exactly when what their class looks at is in range; they keep the class and that value, and the rest is normalised |
| `CfsLaws.WeightFalls` | crates/thekernel-axsched/src/cfs.rs:279-294 | A larger nice value is a strictly smaller weight, equal values weigh the same, and nothing is lighter than an idle task |
| `CfsLaws.LevelStep` | crates/thekernel-axsched/src/cfs.rs:198-204 | One nice level is worth between 20 and 30 per cent of weight |
| `CfsLaws.WeightScale` | crates/thekernel-axsched/src/cfs.rs:279-294 | Nice 0 and real-time tasks weigh 1024 |
| `CfsLaws.VruntimeMeans` | crates/thekernel-axsched/src/cfs.rs:300-311 | Vruntime is the start plus ticks times 1024 over the weight, rounded down, each operation saturating |
| `CfsLaws.MoreTicks` | crates/thekernel-axsched/src/cfs.rs:300-311 | More ticks never lower vruntime |
| `CfsLaws.VruntimeOrders` | crates/thekernel-axsched/src/cfs.rs:300-311 | At equal ticks, or more, the lighter task is further on |
| `CfsLaws.TickAdvances` | crates/thekernel-axsched/src/cfs.rs:384-391 | A tick adds exactly one at nice 0, at least one to a lighter task and at most one to a heavier one |
| `CfsLaws.RetunedKeepsVruntime` | crates/thekernel-axsched/src/cfs.rs:368-378 | Changing the parameters changes no vruntime, and starts a whole slice exactly for real-time ones |
| `CfsLaws.FloorAdvances` | crates/thekernel-axsched/src/cfs.rs:739-752 | A refreshed floor is the old one or a candidate, never below the old one, above no candidate unless it is the old one, and gone exactly when there is none |
| `CfsLaws.NewStartsAtFloor` | crates/thekernel-axsched/src/cfs.rs:844-853 | A new task starts at the floor, a seeded one no earlier than its seed |
| `CfsLaws.WakeupBehindFloor` | crates/thekernel-axsched/src/cfs.rs:766-775 | A woken task keeps a later vruntime and otherwise enters two, three or four units behind the floor, by class, up to the end of the range |
| `CfsLaws.MigrationKeepsDistance` | crates/thekernel-axsched/src/cfs.rs:318-342 | A migrated task is as far from the new floor as it was from the old one, if and only if neither the distance nor the new place saturates |
| `CfsLaws.PlacedAtVruntime` | crates/thekernel-axsched/src/cfs.rs:842-877 | A fair task enters the tree at its own vruntime, which requeueing leaves alone |
| `CfsLaws.PublishedAsNew` | crates/thekernel-axsched/src/cfs.rs:932-982 | A committed reservation has the words that queueing the new task directly would give it, except for the migration offset, which it keeps |
| `CfsLaws.YieldGivesWay` | crates/thekernel-axsched/src/cfs.rs:858-864 | A fair task that yields is not picked next while another fair task is ready |
| `CfsLaws.PreemptedResumes` | crates/thekernel-axsched/src/cfs.rs:804-840 | Unless a larger priority is ready, a preempted FIFO task, or a round-robin task with some slice left, is picked before its peers and keeps its slice |
| `CfsLaws.YieldRotates` | crates/thekernel-axsched/src/cfs.rs:804-840 | A real-time task that yields, or a spent round-robin task, lets its first peer run; a round-robin task then has a whole slice |
| `CfsLaws.MigrationKeepsSlice` | crates/thekernel-axsched/src/cfs.rs:820-825 | A migrating round-robin task goes to the back with what is left of its slice |
| `CfsFairness.PacedOnRun` | crates/thekernel-axsched/src/cfs.rs:796-1243 | In every state of every run of operations a ready fair task stands in the tree at its own vruntime, and the floor stays in range |
| `CfsFairness.PicksLeastVruntime` | crates/thekernel-axsched/src/cfs.rs:1155-1169 | On every run a picked fair task has the least vruntime of all ready tasks, none of which is real-time |
| `CfsFairness.FloorMovesBack` | crates/thekernel-axsched/src/cfs.rs:739-752 | The floor moves back exactly when a lone fair task below it is reconfigured |

## Left out

- Weak memory orderings: all atomic accesses are sequentially consistent single steps.
- `Arc` internals, cache-line layout and allocation failure (`NoMemory`): reference counts are ghost owners and allocation always succeeds.
- LFENCE and speculation: the barrier is an operation without effect.
- Inputs longer than 2^32 - 1 bytes, and the physical alignment of the base of native-word input.
- Bytes that the validator's table does not decode: `Architecture` models the processor's reading only of encodings that occur in that table.
- The frame loads of the context prologue are modelled as loads; the source writes them as moves from a memory operand, which is the same instruction.
- `Program::verify` copying its input, `Display` text, `uses_ancillary`, page-size helpers and relocations, which are always empty.
- RCU: retiring into another domain than the reservation's, and the drop of a domain. The rollback of `unregister_cpu` is an ordinary registration step.
- EpochLaws.QueuedIsNowhereElse: for runs in which no object is published twice; an object that its owner publishes again is in a slot and in the queue at once, with one reference for each, and `EpochSafety.LoadedObjectsAreOwned` covers that.
- CfsLaws.VruntimeOrders: for tick counts below 2^63 / 1024; beyond them the product saturates for every weight but 1024, and the order between that weight and the others is lost.
- CfsLaws.TickAdvances: for vruntimes that do not saturate.
- WakeRuns.BlockedEnters: other drains may be returning blocked as well but not still working on the queue; a drain that runs on concurrently counts as the next drain, which ends the interval the wake is promised for. Safety is proved for any number of drains.
- WakeRuns.WakeIsNotLost: states with no reader left; with readers inside, the exact condition is `WakeRuns.WakeMissingExactly`.
- BareValues.AcceptedComputes: an `rsi` that points into the function's own frame, whose bytes change during the run, is not covered.
- Bpf.OperationRoundTrip: instructions are held by operation and their raw word is derived; the acceptors and the second interpreter match on the raw word.
- Fault broker: keys, handlers and results are numbers; picking functions of sweeps are pure functions of the snapshot (in the source they may carry state); `complete_range` and `release_range`, which only choose the picking function; `load`, `pending_count`, `has_pending` and the iterator over requests; the creation of broker identities.
- FaultBroker.Broker.RemoveWaiter: requires the pool to hold at least this broker's credits, which `FaultHistory.PoolConserved` provides for brokers that share a pool.
- EEVDF fair virtual time, lag, eligibility and the augmented tree; the deadline server's throttling and replenishment; parameter changes between two periods (`clear_runtime_fraction`) and the class and weight that own a residue, which stay fixed in the model.
- RoundRobinService.RoundRobinTask.Service: only round-robin tasks; for a FIFO task the source just reports whether higher work waits.
- RuntimeAccounting.RuntimeAccount.Account: the deadline clock that the same call advances, and the fair class, whose service transaction belongs to the virtual-time model.
- Deadline reservations that are replaced through reconfiguration or migration: the ledger theorem covers admission and release.
- CFS: the red-black tree itself (a list in key order), packing of parameters into one word, inheritance of a parent's vruntime, staging a running task's vruntime for migration, `set_priority`, and allocation of scheduler identities. No claim is made about the fair floor being below every ready task.
- The other crates of the repository (`axpmu`, `axpoll`, `axtask`) and the FIFO and round-robin schedulers are not modelled.
