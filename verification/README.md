# A verified model of the EVM assembly back end

This project models the assembly back end of the Solidity compiler (`libevmasm`), the LLL compiler on top of it
(`liblll`) and the printer, scanner and parser of strict assembly (`libyul`, `liblangutil`), and proves in Dafny that
what they produce means what they were given. `dafny verify dfyconfig.toml` checks everything.

One small EVM serves all parts (`Words`, `Instructions`, `Arithmetic`, `Items`, `Machine`, `Segments`): 256-bit words with
every wrap-around written out (appendix H of the Ethereum Yellow Paper), a stack, storage, byte memory whose addresses
wrap at 2^256, a trace of the interactions with the outside world, and programs that jump between tags.

| part | files | main result |
|---|---|---|
| rewrite rules | `Laws`, `Rules`, `RulesSound` | every rule that can be applied keeps the value, for all operands |
| expression classes | `Expressions`, `ExpressionClasses` | a class denotes the value of every expression found in it; "known to be different" is true |
| knowledge tracking | `Knowledge`, `Steps`, `Tracking`, `KnownState` | after any block, every known stack height, slot and memory word has the value of its class |
| code generation | `Replay`, `Layout`, `Dependencies`, `Generation`, `CodeGenerator` | generated code leaves the target stack, storage and memory |
| elimination pass | `Eliminator`, `Pieces`, `EliminationPass` | the whole program keeps the outcome of every halting run |
| peephole pass | `Peephole`, `PeepholePass` | the same, and repeating the pass always ends |
| constants | `Constants`, `ConstantPass` | every routine pushes its constant; replacing constants keeps every halting run |
| block merging | `TagRelation`, `Bisimulation`, `Deduplicator` | the program is bisimilar to the one before, and merging always ends |
| tag removal | `JumpdestRemover` | both programs halt alike from every state without references to removed tags |
| the optimiser | `Optimiser` | all passes together end for every setting, without a counter; every step preserves in the reading of its pass, and with tag removal no tag is replaced twice |
| assembler, decoder | `TagData`, `Encoding`, `Linking`, `Assembler`, `Bytecode` | decoding assembled code gives back one instruction per item with the right operand |
| LLL | `Lll`, `LllMeaning`, `LllSound`, `LllLayout`, `LllCorrect`, `LllTags`, `LllDeposits`, `Assembly`, `CodeFragment` | jump code computes the meaning of its tree |
| strict assembly | `Yul`, `YulScanner`, `YulLexing`, `YulPrinter`, `YulSpelling`, `YulParser`, `YulRoundTrip`, `YulResults`, `YulAsmParser` | every program that can be parsed is read back, unchanged, from its printed text |
| supporting cores | `Utf8`, `StringDistance`, `Sha256` | validation accepts exactly UTF-8; the table computes the least number of edits; chunks hash like the padded whole |

## How the model reads the source

- **Exceptions** are failures: `None`, `false`, or a result that says so. Theorems about code that is produced are about
  calls that return normally, and a pass that catches an exception keeps the original code as the source does. Assertions on
  the running stack count in `Assembly::append` are preconditions, and every call site is proved to meet them.
- **Two readings of tags.** The peephole, elimination and constant passes compute with tags as numbers (a mask is taken
  off a tag, jumps compare equal): there, tags are distinct numbers of at most four bytes, as the assembler demands. Merging
  blocks and removing tags change which tag is pushed: there, code references are opaque, may be moved, stored in storage or
  memory and jumped to, and are stuck anywhere else.
- **Preservation** of the first group of passes says that every halting run keeps its outcome: returned data, storage as the
  outside can see it, and the interactions. A run that is stuck (a missing operand, a bad jump) promises nothing. Merging and
  removal are proved in both directions.
- **Integers** are unbounded where the source's width cannot matter; 256-bit, 64-bit and 32-bit limits that matter are written out.
- **Simplification** carries a bound on how often `find`, `tryToSimplify` and `rebuildExpression` call each other; reaching it
  is a failure like any other exception.
- **Words of strict assembly.** Instruction names, built-in functions and the keywords of the surrounding language are
  parameters; the instruction table is only assumed to give every instruction a name of its own. A text with a token that no
  strict assembly has (a comment, an operator) is not read.
- **Gas** decides which of several equivalent routines for a constant is used; costs are parameters.

## What the proofs found

- The second `MULMOD` entry of the constant-folding rules computes another function than `MULMOD`. It has the pattern of the first
  entry and can never be reached (`Classes.MulModEntries`, `Classes.MulModShadowed`).
- The rules that drop a 160-bit mask are right for `ADDRESS`, `CALLER`, `ORIGIN` and `COINBASE`. For `CREATE` and `CREATE2` their
  patterns have no operands, and no expression class of a block is a creation, so these entries never match
  (`Classes.MaskedCreationsNeverMatch`).
- `OpPop` can lengthen the code (`PeepholePass.DroppingCanLengthen`). The pass still ends: every rule lowers the triple of
  items other than `POP`, plain pushes, and items.
- The guard "Peephole optimizer seems to be stuck" is not needed for the loop to end, and neither is any counter for the whole optimiser loop.
- The check of a computed constant in the constructor of `ComputeMethod` never fails.
- Tag replacements of earlier rounds stay in the deduplicator's map and do no harm: each points to an earlier equivalent tag.
- An operation item that is itself a `PUSH` swallows the bytes of the items after it. Every item starts an instruction exactly if no
  operation item but the last is a push (`Bytecode.ItemsAreInstructions`).
- Widths of data references come from an estimate: a reference is exact if and only if the position fits the bytes set aside
  (`Bytecode.SubReferences`, `Bytecode.DataReferences`, `Bytecode.SizeReferences`).
- Joining tag replacements fails with "Replacement already known" exactly if a tag replaced in an earlier round is replaced
  again, which can only happen while its tag item is still in place (`Optimisers.FollowReplacements`, `Optimisers.MergeBlocks`).
  With tag removal on and no tag known outside it never happens, in any number of rounds: no pass pushes or places a tag that was
  not there, merging leaves no replaced tag pushed, so removal takes it away (`Optimisers.Iterate`).
- Re-indenting printed assembly is safe because no printed literal has a raw newline; a backslash before a newline, which the
  scanner accepts inside a literal, would break it, and is never printed (`YulLexing.LexIndent`).
- The scan for valid UTF-8 goes on after an error inside a sequence; its answer is right all the same.
- `assemble` takes the largest *position* of a sub-assembly's tag as the starting *size* of its tags; the model keeps this, and the size loop ends anyway.

## Model

| member | source | states |
|---|---|---|
| `RulesSound.RulePreserves` | libevmasm/RuleList.h:61-586 | every rule but the unreachable MULMOD entry and the masked creations: wherever it is feasible, the replacement has the EVM value of the pattern, for all constants and operands |
| `RulesSound.FoldSound6` | libevmasm/RuleList.h:93-109 | constant folding of SIGNEXTEND, SHL and SHR agrees with the EVM, including byte positions of 31 and above and shifts beyond 255 |
| `RulesSound.ModPowersSound` | libevmasm/RuleList.h:235-244 | X mod a power of two is X masked with one less, for all 256 powers |
| `RulesSound.ShiftPairsSound2` | libevmasm/RuleList.h:403-437 | a shift left then right (or the reverse) by amounts below 256 is one net shift and a computed mask |
| `RulesSound.ShiftedMaskSound` | libevmasm/RuleList.h:439-463 | a constant mask moves across a shift with its bits shifted, in either operand order |
| `RulesSound.ShiftProductsSound` | libevmasm/RuleList.h:465-489 | a product with, or a quotient by, 1 shifted left by Y is a shift by Y, for all Y including 256 and above |
| `Laws.ShrShl` | libevmasm/RuleList.h:403-419 | a left shift followed by a right shift is a net shift under the mask that the rule computes |
| `Laws.MaskIsRemainder` | libevmasm/RuleList.h:235-244 | masking with 2^n - 1 is the remainder modulo 2^n |
| `Classes.FindFirstMatch` | libevmasm/SimplificationRules.cpp:43-60 | returns a replacement with the value of the expression in every sensible valuation, and nothing only if no rule matches and is feasible |
| `Classes.MatchedRuleSound` | libevmasm/SimplificationRules.cpp:111-127 | a match binds each group to one class, and the rule's template over these classes has the value of the expression |
| `Classes.MulModEntries` | libevmasm/RuleList.h:91-92 | the two MULMOD entries are different rules with the same pattern, and the first is always feasible |
| `Classes.MulModShadowed` | libevmasm/RuleList.h:91-92 | whenever the second MULMOD entry applies, an earlier one applies |
| `Classes.MaskedCreationsNeverMatch` | libevmasm/RuleList.h:262-283 | a rule that masks an account creation applies to no expression of a block |
| `Classes.ExpressionClasses.Find` | libevmasm/ExpressionClasses.cpp:58-125 | the class returned has the value of the expression in every valuation; classes are only added; arguments have smaller numbers than their class |
| `Classes.ExpressionClasses.TryToSimplify` | libevmasm/ExpressionClasses.cpp:184-213 | the simplified class has the value of the expression; expressions with sequence numbers are left alone |
| `Classes.ExpressionClasses.Rebuild` | libevmasm/ExpressionClasses.cpp:215-224 | the class built from a template has the template's value over the matched classes |
| `Classes.ExpressionClasses.KnownToBeDifferent` | libevmasm/ExpressionClasses.cpp:127-131 | if it says true, the two classes differ in every valuation |
| `Classes.ExpressionClasses.KnownToBeDifferentBy32` | libevmasm/ExpressionClasses.cpp:133-139 | if it says true, the two classes are at least 32 apart modulo 2^256 in every valuation |
| `Classes.ExpressionClasses.KnownNonZero` | libevmasm/ExpressionClasses.cpp:146-149 | if it says true, the class is not zero in any valuation |
| `Tracking.SurvivorsKept` | libevmasm/KnownState.cpp:288-345 | facts kept across a store are about slots that differ (or hold the stored value), or about addresses at least 32 bytes away |
| `Tracking.SstoreSound` | libevmasm/KnownState.cpp:288-314 | after a storage store with the surviving facts, everything known is true of the machine, and the recorded store is the one that happened |
| `Tracking.MstoreSound` | libevmasm/KnownState.cpp:325-345 | the same for a memory store of 32 bytes at any address, wrapping at 2^256 |
| `Steps.FarRead` | libevmasm/KnownState.cpp:325-345 | a memory word at least 32 bytes away modulo 2^256 reads the same after a store |
| `KnownStates.KnownState.StackElement` | libevmasm/KnownState.cpp:246-253 | the class at a height, a fresh unknown for a height not seen before, and nothing else changes |
| `KnownStates.KnownState.FeedSwap` | libevmasm/KnownState.cpp:274-286 | swapping tracked heights tracks the machine's swap |
| `KnownStates.KnownState.FeedSload` | libevmasm/KnownState.cpp:316-323 | a known slot gives its class, an unknown one a class with a sequence number; either way the pushed value is right |
| `KnownStates.KnownState.FeedMload` | libevmasm/KnownState.cpp:347-354 | the same for memory words |
| `KnownStates.KnownState.StoreInStorage` | libevmasm/KnownState.cpp:288-314 | a sound step of SSTORE; a store of what is known to be there is dropped; sequence numbers ascend |
| `KnownStates.KnownState.StoreInMemory` | libevmasm/KnownState.cpp:325-345 | a sound step of MSTORE; a store of what is known to be there is dropped; sequence numbers ascend |
| `KnownStates.KnownState.FeedItem` | libevmasm/KnownState.cpp:87-178 | for every machine that the facts describe, one step of the machine is described by the new facts, and a recorded store is the store that happened |
| `Replays.ReplayAgrees` | libevmasm/CommonSubexpressionEliminator.cpp:147-172 | running only some of the writes, in order, leaves the original content at every place whose last writer is among them |
| `Replays.ReplayIsHistory` | libevmasm/CommonSubexpressionEliminator.cpp:147-172 | if that covers every place, the final world is the original one |
| `Dependencies.ResolvedLoadReady` | libevmasm/CommonSubexpressionEliminator.cpp:217-301 | a load whose dependencies are recorded reads, among the stores generated so far, the value the block read, whatever slots alias |
| `Dependencies.FinalWorld` | libevmasm/CommonSubexpressionEliminator.cpp:147-172 | with the last store to each slot generated, dropping the others leaves the block's final storage and memory |
| `Layouts.CancelSwaps` | libevmasm/CommonSubexpressionEliminator.cpp:479-504 | removing two equal adjacent swaps keeps what the code does |
| `Layouts.SwapMoves` | libevmasm/CommonSubexpressionEliminator.cpp:479-504 | a swap exchanges exactly two tracked heights in every consistent machine |
| `Layouts.LoadMoves` | libevmasm/CommonSubexpressionEliminator.cpp:303-420 | a generated load pushes the value of its class, provided it is ready |
| `Layouts.StoreMoves` | libevmasm/CommonSubexpressionEliminator.cpp:303-420 | a generated store performs the recorded write, provided only earlier stores were generated before |
| `Generation.ClassGen` | libevmasm/CommonSubexpressionEliminator.cpp:303-420 | emitting the item of a class keeps positions and stack inverse to each other and the code correct |
| `CodeGenerators.CSECodeGenerator.AppendDup` | libevmasm/CommonSubexpressionEliminator.cpp:468-477 | the copied class is on top, nothing else moved, class positions stay the inverse of the stack |
| `CodeGenerators.CSECodeGenerator.AppendOrRemoveSwap` | libevmasm/CommonSubexpressionEliminator.cpp:479-504 | exchanges the top with one height or cancels an equal swap; it fails only beyond 16 |
| `CodeGenerators.CSECodeGenerator.RemoveStackTopIfPossible` | libevmasm/CommonSubexpressionEliminator.cpp:454-466 | pops only what is not needed any more and no target already placed |
| `CodeGenerators.CSECodeGenerator.GenerateClassElement` | libevmasm/CommonSubexpressionEliminator.cpp:303-420 | the class is available afterwards, targets already placed are undisturbed, and no other sequenced class is generated |
| `CodeGenerators.CSECodeGenerator.AddDependencies` | libevmasm/CommonSubexpressionEliminator.cpp:217-301 | everything that must come before a class is recorded, for stores that may alias |
| `CodeGenerators.CSECodeGenerator.GenerateSequenced` | libevmasm/CommonSubexpressionEliminator.cpp:156-174 | loads and stores are generated in ascending sequence numbers, each one ready |
| `CodeGenerators.CSECodeGenerator.PlaceTarget` | libevmasm/CommonSubexpressionEliminator.cpp:176-196 | one more height holds its target class, all lower ones still do |
| `CodeGenerators.CSECodeGenerator.GenerateCode` | libevmasm/CommonSubexpressionEliminator.cpp:133-215 | for every machine consistent with the block, the code ends with the target class at every target height, the stack below untouched, and the block's final world |
| `Eliminators.CommonSubexpressionEliminator.FeedItem` | libevmasm/CommonSubexpressionEliminator.cpp:74-79 | the facts and recorded stores explain every run of the items fed so far |
| `Eliminators.CommonSubexpressionEliminator.FeedItems` | libevmasm/CommonSubexpressionEliminator.h:175-187 | feeds exactly the items up to and including the first that breaks the block |
| `Eliminators.CommonSubexpressionEliminator.OptimizeBreakingItem` | libevmasm/CommonSubexpressionEliminator.cpp:81-119 | a conditional jump on a known condition and a return of nothing are replaced by code with the same flow |
| `Eliminators.CommonSubexpressionEliminator.GetOptimizedItems` | libevmasm/CommonSubexpressionEliminator.cpp:35-72 | whenever it returns, the new block has the behaviour of the old one from every linked state, a tag at its end stays there, and no tag is new |
| `Pieces.PassPreserves` | libevmasm/Assembly.cpp:457-505 | replacing pieces of a program between tags by refinements keeps the outcome of every halting run, jumps included |
| `EliminationPass.EliminateCommonSubexpressions` | libevmasm/Assembly.cpp:457-505 | the pass keeps tags unique, never lengthens, brings in no tag, and preserves every halting run of the whole program |
| `Peephole.PushPopRefines` | libevmasm/PeepholeOptimiser.cpp:107-118 | a push and a pop do nothing |
| `Peephole.OpPopRefines` | libevmasm/PeepholeOptimiser.cpp:120-140 | a popped result of an operation without side effects is as many pops as it has operands |
| `Peephole.DoubleSwapRefines` | libevmasm/PeepholeOptimiser.cpp:142-148 | two equal swaps do nothing |
| `Peephole.DoublePushRefines` | libevmasm/PeepholeOptimiser.cpp:150-163 | pushing a number twice is a push and a copy |
| `Peephole.CommutativeSwapRefines` | libevmasm/PeepholeOptimiser.cpp:165-181 | a swap before a commutative operation can go |
| `Peephole.SwapComparisonRefines` | libevmasm/PeepholeOptimiser.cpp:183-206 | a swap before a comparison mirrors it, signed ones too |
| `Peephole.IsZeroIsZeroJumpIRefines` | libevmasm/PeepholeOptimiser.cpp:208-232 | a doubly negated condition jumps like the condition |
| `Peephole.JumpToNextRefines` | libevmasm/PeepholeOptimiser.cpp:234-258 | a jump to the tag that follows is nothing, a conditional one a pop |
| `Peephole.TagConjunctionsRefines` | libevmasm/PeepholeOptimiser.cpp:260-282 | masking a tag with a mask that covers 32 bits does nothing, by the assembler's bound on tags |
| `Peephole.TruthyAndRefines` | libevmasm/PeepholeOptimiser.cpp:284-300 | masking with all ones does nothing |
| `Peephole.UnreachableRefines` | libevmasm/PeepholeOptimiser.cpp:302-332 | nothing after the end of the flow is ever reached without a tag |
| `PeepholePass.UnreachableCode` | libevmasm/PeepholeOptimiser.cpp:302-332 | removes everything up to the next tag or the end, and applies only if that is something |
| `PeepholePass.ApplyMethods` | libevmasm/PeepholeOptimiser.cpp:334-344 | the first method, in the source's order, that applies at the position |
| `PeepholePass.TryOk` | libevmasm/PeepholeOptimiser.cpp:107-332 | whatever a method does to its window refines it in every linked program |
| `PeepholePass.TryLowers` | libevmasm/PeepholeOptimiser.cpp:107-332 | every method but copying lowers the triple (items other than POP, plain pushes, items) |
| `PeepholePass.DroppingCanLengthen` | libevmasm/PeepholeOptimiser.cpp:120-140 | an input on which the operation-pop rule lengthens the code and still lowers the triple |
| `PeepholePass.Optimise` | libevmasm/PeepholeOptimiser.cpp:353-375 | an accepted pass preserves every halting run, lowers the triple, never lengthens the code and brings in no tag |
| `PeepholePass.OptimiseFully` | libevmasm/Assembly.cpp:423-431 | repeating the pass until it changes nothing ends, and preserves |
| `Constants.CheckRepresentation` | libevmasm/ConstantOptimiser.cpp:237-301 | true exactly if the routine leaves just the value on an empty stack |
| `Constants.PartsAreSmaller` | libevmasm/ConstantOptimiser.cpp:177-235 | both parts of a useful split are smaller than the value |
| `Constants.SplitValue` | libevmasm/ConstantOptimiser.cpp:196-221 | upper part times the power of two plus or minus the lower part is the value modulo 2^256 |
| `Constants.ComputeMethod.FindRepresentation` | libevmasm/ConstantOptimiser.cpp:177-235 | for every value, instruction set and step budget it ends with code that pushes exactly the value on any stack |
| `Constants.CheckSucceeds` | libevmasm/ConstantOptimiser.h:137-146 | such code always passes the check in the constructor |
| `ConstantPass.ComputedRefines` | libevmasm/ConstantOptimiser.cpp:237-301 | a routine that passes in the small calculator does on the EVM what the push does |
| `ConstantPass.CopyRuns` | libevmasm/ConstantOptimiser.cpp:151-175 | the copy routine pushes the big-endian value of the data and restores the memory it used, from every state |
| `ConstantPass.ReplaceConstants` | libevmasm/ConstantOptimiser.cpp:107-127 | every occurrence of a constant in the table is replaced, and nothing else |
| `ConstantPass.ReplacementPreserves` | libevmasm/ConstantOptimiser.cpp:107-127 | replacing constants by code that pushes them preserves every halting run |
| `ConstantPass.OptimiseConstants` | libevmasm/ConstantOptimiser.cpp:29-78 | whatever the costs, the program with its constants replaced preserves every halting run once the data is in place |
| `Machine.BytesRoundTrip` | libdevcore/CommonData.h:149-171 | big-endian bytes decode to the number, for every number that fits |
| `Deduplicator.ComparatorIsWeakOrder` | libevmasm/BlockDeduplicator.cpp:51-77 | the comparator is irreflexive and transitive, and two blocks are equivalent in it exactly if their contents are equal |
| `Deduplicator.KeyImage` | libevmasm/BlockDeduplicator.cpp:125-146 | blocks with equal contents, seen through the self tag and across skipped tags, are the same code up to equivalent tags |
| `Deduplicator.CoherentMerge` | libevmasm/BlockDeduplicator.cpp:79-97 | merging the tags of two equal blocks keeps all equivalent tags leading to equivalent code |
| `Deduplicator.ApplyTagReplacement` | libevmasm/BlockDeduplicator.cpp:100-123 | replaces exactly the pushed tags in the map, and says whether there were any |
| `Deduplicator.PlacesFall` | libevmasm/BlockDeduplicator.cpp:79-97 | a changing round lowers the sum of the positions of all pushed tags |
| `Deduplicator.BlockDeduplicator.Deduplicate` | libevmasm/BlockDeduplicator.cpp:37-98 | ends; the result is bisimilar, differs only in pushed tags, pushes no replaced tag and none that was neither pushed nor in place, and blocks that remain differ |
| `TagRelation.SameStep` | libevmasm/BlockDeduplicator.cpp:37-98 | states that differ in equivalent tags step to such states, whatever the item |
| `Bisimulation.EquivalentPrograms` | libevmasm/BlockDeduplicator.cpp:37-98 | programs that differ in equivalent tags halt from the same states with the same outcomes, in both directions |
| `JumpdestRemovers.ReferencedTags` | libevmasm/JumpdestRemover.cpp:55-66 | exactly the tags of this assembly that are pushed |
| `JumpdestRemovers.LiveStep` | libevmasm/JumpdestRemover.cpp:33-53 | a machine that holds only references to kept tags keeps doing so, through stack, storage and memory |
| `JumpdestRemovers.RemovalPreserves` | libevmasm/JumpdestRemover.cpp:33-53 | both programs halt from the same states with the same outcomes |
| `JumpdestRemovers.JumpdestRemover.Optimise` | libevmasm/JumpdestRemover.cpp:33-53 | removes tags that are neither pushed nor known outside, says whether it did, and fails exactly on tags of other assemblies; no tag item is new |
| `Optimisers.FollowReplacements` | libevmasm/Assembly.cpp:439-454 | replacements are joined with those known, the tags known outside follow them in ascending order, and it fails exactly on a tag that is too large or known already, saying which |
| `Optimisers.FollowedExactly` | libevmasm/Assembly.cpp:451-453 | if no replacement is itself replaced, the tags known outside afterwards are exactly the old ones with each replaced tag exchanged |
| `Optimisers.TidyAfterMerging` | libevmasm/BlockDeduplicator.cpp:100-123 | after merging, neither the tags replaced now nor those replaced in earlier rounds are pushed |
| `Optimisers.CleanAfterRemoval` | libevmasm/JumpdestRemover.cpp:33-53 | after removal no tag replaced in an earlier round is in place |
| `Optimisers.MergeBlocks` | libevmasm/Assembly.cpp:434-456 | block merging inside a round: sound and smaller; joining fails only on a tag in place that is too large or was replaced before |
| `Optimisers.NeverReplacedTwice` | libevmasm/Assembly.cpp:446-450 | with tag removal on and no tag known outside, neither assertion on replacements can fire |
| `Optimisers.Round` | libevmasm/Assembly.cpp:410-504 | one round is sound, lowers the measure or changes nothing, and leaves no replaced tag pushed |
| `Optimisers.Iterate` | libevmasm/Assembly.cpp:410-506 | rounds of the five passes end for every setting; the result is sound for the passes that ran and no longer; with tag removal on and no tag known outside, no tag is replaced twice in any number of rounds |
| `Optimisers.OptimiseInternal` | libevmasm/Assembly.cpp:391-518 | for every setting tags stay unique, the result is reached by steps that each preserve halting runs in the reading of their pass, and only routines for constants lengthen it; peephole, elimination and constants together preserve every halting run; tag removal and merging together preserve all runs in both directions |
| `TagData.SplitCombined` | libevmasm/AssemblyItem.cpp:42-58 | splitting undoes combining a sub-assembly and a tag, and a combined number is local exactly if it is below 2^64 |
| `TagData.CombinedSplit` | libevmasm/AssemblyItem.cpp:42-58 | combining undoes splitting, for all data below 2^128 |
| `Encoding.EachInstruction` | libevmasm/Instruction.cpp:321-348 | the decoder loop computes the recursive decoding, with operands cut off by the end padded with zeros |
| `Encoding.PatchOperand` | libevmasm/Assembly.cpp:647-695 | overwriting the operand bytes of an item changes its operand and no other byte |
| `Encoding.DecodeCode` | libevmasm/Instruction.cpp:321-348 | decoding the encoding of items gives one instruction per item, whatever follows |
| `Encoding.TagIsJumpDest` | libevmasm/Assembly.cpp:630-637 | the start of every tag item is a valid jump destination (section 9.4.3 of the Ethereum Yellow Paper) |
| `Assembler.EstimateSize` | libevmasm/Assembly.cpp:97-110 | the loop ends with the estimate for the least sufficient size of a tag |
| `Assembler.WriteBigEndian` | libdevcore/CommonData.h:149-160 | the given bytes hold the number modulo 256^width, all others are unchanged |
| `Assembler.EmitItems` | libevmasm/Assembly.cpp:553-641 | code with zeros in every gap, the position of every tag, and one reference per gap; fails exactly on bad items and bad tags |
| `Assembler.AppendSubs` | libevmasm/Assembly.cpp:647-658 | every reference to a sub-assembly that is appended holds its position, and nothing else changes |
| `Assembler.FillTags` | libevmasm/Assembly.cpp:659-675 | every tag reference holds the tag's position; fails exactly if one has no position or does not fit |
| `Assembler.AppendData` | libevmasm/Assembly.cpp:676-687 | every reference to data holds its position, and nothing else changes |
| `Assembler.FillSizes` | libevmasm/Assembly.cpp:689-696 | every reference to the program size holds it |
| `Assembler.Assemble` | libevmasm/Assembly.cpp:520-697 | succeeds exactly on assemblable input, and then the filled-in buffer is the code with its final operands, the sub-assemblies, the data and the rest |
| `Bytecode.AssembledDecodes` | libevmasm/Assembly.cpp:520-697 | decoding the code section gives back one instruction per item with the right operand |
| `Bytecode.TagReferencesLand` | libevmasm/Assembly.cpp:659-675 | a reference to a tag of this assembly pushes the position of that tag's JUMPDEST, a valid jump destination of the whole bytecode |
| `Bytecode.SubReferences` | libevmasm/Assembly.cpp:647-658 | the sub-assembly lies at its offset, and a reference is exact if and only if the offset fits the width |
| `Bytecode.DataReferences` | libevmasm/Assembly.cpp:676-687 | the same for data |
| `Bytecode.SizeReferences` | libevmasm/Assembly.cpp:689-696 | the pushed size is the size of the bytecode if and only if it fits the width |
| `Bytecode.LocalTagsFit` | libevmasm/Assembly.cpp:543-550 | unless data references are wider than the estimate's tags, no tag of this assembly is too large for its references |
| `Bytecode.ItemsAreInstructions` | libevmasm/Assembly.cpp:561-563 | every item starts an instruction if and only if no operation item but the last is a push |
| `Assemblies.Assembly.Append` | libevmasm/Assembly.cpp:82-90 | the item is added and the stack count moved by its deposit |
| `Assemblies.Assembly.AppendFragment` | libevmasm/Assembly.cpp:40-71 | the fragment is added with its tags renumbered past those in use; the running count never falls below zero |
| `Assemblies.Assembly.AppendTrimmed` | libevmasm/Assembly.cpp:73-80 | the fragment and as many pops as it leaves too much; rejected exactly if it leaves too little |
| `CodeFragments.CompileIf` | liblll/CodeFragment.cpp:538-560 | the code of IF, and an error exactly where the translation has none |
| `CodeFragments.CompileSwitch` | liblll/CodeFragment.cpp:602-639 | conditions in order, the default, then the bodies in reverse order |
| `CodeFragments.CompileShortCircuit` | liblll/CodeFragment.cpp:693-719 | the code of the short-circuit operators, for any number of operands |
| `CodeFragments.Compile` | liblll/CodeFragment.cpp:497-638 | builds exactly the translation of the tree, and reports an error only where there is none |
| `CodeFragments.CompileProgram` | liblll/CodeFragment.cpp:47-60 | the compiled program, with the STOP added at its end |
| `LllCorrect.Sound` | liblll/CodeFragment.cpp:497-638 | at any place of any program, on any stack, the code of a tree computes its big-step meaning and leaves exactly its deposit |
| `LllCorrect.IfSound` | liblll/CodeFragment.cpp:538-560 | IF computes the chosen branch, cut to the smaller deposit |
| `LllCorrect.LoopSound` | liblll/CodeFragment.cpp:573-586 | WHILE and UNTIL compute the iterated body and leave nothing |
| `LllCorrect.ForSound` | liblll/CodeFragment.cpp:587-601 | FOR computes its initialisation, then condition, body and step in turn |
| `LllCorrect.SwitchSound` | liblll/CodeFragment.cpp:602-639 | SWITCH computes the body of the first condition that holds, or the default |
| `LllCorrect.ShortCircuitSound` | liblll/CodeFragment.cpp:693-719 | the short-circuit operators stop at the first operand that decides and otherwise give the last one |
| `LllTags.CodeTagged` | libevmasm/Assembly.cpp:40-71 | appending a finished fragment, renumbered, keeps all tags distinct |
| `LllTags.TranslateTagged` | liblll/CodeFragment.cpp:497-638 | compiled code defines no tag twice and pushes only tags it defines |
| `LllTags.ProgramCorrect` | liblll/Compiler.cpp:31-44 | from an empty stack the compiled program stops in the world its tree means, or halts as its tree does |
| `LllDeposits.TranslateSane` | libevmasm/Assembly.cpp:82-90 | while code is appended the running stack count is never negative, so the underflow assertion never fires |
| `YulScanner.Tokens` | liblangutil/Scanner.cpp:442-655 | the scanning loop computes the tokens of the text, and fails exactly on a token that strict assembly cannot have |
| `YulScanner.ScanText` | liblangutil/Scanner.cpp:726-748 | the loop over a text literal computes its value and its end, escapes included |
| `YulLexing.LexConcat` | liblangutil/Scanner.cpp:442-655 | two texts with a delimiter between them are scanned as their tokens in a row |
| `YulLexing.LexIndent` | libyul/AsmPrinter.cpp:244-259 | indenting all lines of a text does not change its tokens |
| `YulPrinter.UnescapeText` | libyul/AsmPrinter.cpp:49-90 | scanning an escaped literal gives back its value, for every byte string |
| `YulSpelling.ReadsBlock` | libyul/AsmPrinter.cpp:98-259 | a printed block is scanned as exactly the tokens of its tree |
| `YulRoundTrip.ExpressionBack` | libyul/AsmParser.cpp:307-356 | parsing the tokens of an expression gives the expression and leaves the rest |
| `YulRoundTrip.StatementBack` | libyul/AsmParser.cpp:94-261 | parsing the tokens of a statement gives the statement and leaves the rest, for everything that can follow it |
| `YulRoundTrip.BlockBack` | libyul/AsmParser.cpp:82-92 | the same for blocks, at the recursion depth the parser allows |
| `YulResults.BlockReturned` | libyul/AsmParser.cpp:82-92 | every tree the parser returns is one of the trees the round trip is about |
| `YulResults.PrintedIsReadBack` | libyul/AsmParser.cpp:38-60 | printing, scanning and parsing gives back every program that can be parsed |
| `YulResults.ReadIsReadBack` | libyul/AsmParser.cpp:38-60 | whatever any text is read as can be printed and read back, unchanged |
| `YulResults.PrintingIsInjective` | libyul/AsmPrinter.cpp:98-259 | different programs are printed differently |
| `YulAsmParser.Parser.ParseBlock` | libyul/AsmParser.cpp:82-92 | the parser's loop over statements, with its index and depth counter, computes the parsing function |
| `YulAsmParser.Parser.ParseStatement` | libyul/AsmParser.cpp:94-261 | the same for statements, errors included |
| `YulAsmParser.Parser.ParseExpression` | libyul/AsmParser.cpp:307-356 | the same for expressions |
| `YulAsmParser.Parser.ParseCall` | libyul/AsmParser.cpp:528-610 | the same for calls: exactly the operands of an instruction, any number for a function |
| `YulAsmParser.Parser.ParseCases` | libyul/AsmParser.cpp:113-130 | the same for the cases of a switch: cases, then at most one default |
| `YulAsmParser.ParseText` | libyul/AsmParser.cpp:38-60 | a whole text is read as one block with nothing after it |
| `Utf8.ValidateUTF8` | libdevcore/UTF8.cpp:80-134 | true exactly if the input splits into well-formed sequences (section 4 of RFC 3629) |
| `Utf8.CodePointRoundTrip` | liblangutil/Scanner.cpp:201-216 | every code point below 2^16 decodes back from its bytes, and these are valid exactly if it is no surrogate |
| `StringDistance.Distances` | libdevcore/StringUtils.cpp:49-87 | the table with three rolling rows computes the recursive distance |
| `StringDistance.NoneCheaper` | libdevcore/StringUtils.cpp:49-87 | no sequence of insertions, deletions, substitutions and exchanges of neighbours that turns one string into the other costs less |
| `StringDistance.SomeAsCheap` | libdevcore/StringUtils.cpp:49-87 | some such sequence costs exactly the distance |
| `StringDistance.Symmetric` | libdevcore/StringUtils.cpp:49-87 | the distance is symmetric |
| `StringDistance.Bounds` | libdevcore/StringUtils.cpp:49-87 | it is at most the longer length and at least the difference of the lengths |
| `StringDistance.ZeroMeansEqual` | libdevcore/StringUtils.cpp:49-87 | it is zero exactly for equal strings |
| `StringDistance.WithinDistance` | libdevcore/StringUtils.cpp:32-47 | similar names: equal, or short enough with a distance within the limit and below both lengths |
| `Sha256.AddToLength` | libdevcore/picosha2.h:223-238 | the four digits hold the sum modulo 2^64 |
| `Sha256.BitLength` | libdevcore/picosha2.h:239-264 | eight times the length modulo 2^64, digit by digit |
| `Sha256.Hasher.Process` | libdevcore/picosha2.h:182-191 | the state is that of all bytes fed so far, in whole blocks, and the buffer holds the rest |
| `Sha256.Hasher.Finish` | libdevcore/picosha2.h:193-212 | the final state is that of the padded message, whether it takes one more block or two |
| `Sha256.PaddedIsWhole` | libdevcore/picosha2.h:193-212 | a padded message (section 5.1.1 of FIPS 180-4) is a whole number of blocks |
| `Sha256.Hash` | libdevcore/picosha2.h:182-212 | however a message is cut into chunks, the hash is that of the padded whole |

## Left out

- KECCAK256 in blocks: its memo ignores the byte length; blocks with it are not fed to the model of the eliminator.
- GAS, PC, MSIZE, code size and code bytes as observables, running out of gas, and the stack limit.
- Composition of tag replacements with a parent assembly, and tags of sub-assemblies during optimisation.
- One statement about all five passes in one reading of tags: `Optimisers.OptimiseInternal` states, for all of them together, a chain of programs in which every step preserves in the reading of its own pass, and one end-to-end statement for each of the two readings.
- Feeding the breaking item into a following block and starting a block from a known state: the optimiser always starts from the empty state.
- The control-flow graph and the reduction to common knowledge: disabled in the optimiser.
- GasMeter and PathGasMeter: estimates; costs are parameters here.
- Source locations, jump annotations, library link references beyond their 20 bytes, text and JSON output.
- Classes.ExpressionClasses.Find: does not model unbounded mutual recursion with simplification, because the source gives no bound; a bound on its depth is a parameter and reaching it is a failure.
- Classes.ExpressionClasses.TryToSimplify: the same bound.
- Classes.ExpressionClasses.Rebuild: the same bound.
- Optimisers.Iterate: does not model the limit of 64000 peephole rounds; the loop is proved to end without it.
- Assembler.Assemble: does not model sizes of 2^32 and above, where the source's unsigned sums wrap; they are failures here.
- Assemblies.Assembly.AppendFragment: does not model the wrap of the tag counter at 2^32; reaching it is a failure here. Items of sub-assemblies are not renumbered, as these trees have none.
- LllCorrect.Sound: does not model trees that jump by themselves through JUMP or JUMPI, which have no structured meaning; loops are bounded by a number of iterations, for every such number.
- LLL macros, definitions, variables, ASM, INCLUDE, LIT, LLL, RAW, ALLOC and the parser of LLL.
- YulScanner.Tokens: does not model comments, hexadecimal string literals, fractions and exponents; a text with them is not read.
- YulParser.Parse: does not model the loose and typed flavours of assembly, source locations, and the errors about `break`, `continue` and functions in loop headers, which are reported without changing the tree.
- Sha256.Hasher.Process: does not model chunks of nearly 2^32 bytes, where the source's 32-bit addition wraps; compression is a parameter.
- KnownStates.KnownState.FeedItem: does not model items that invalidate all of storage or memory; they end the block.
- Eliminators.CommonSubexpressionEliminator.FeedItems: does not model blocks with KECCAK256; feeding one fails and the block stays as it is.
- EliminationPass.EliminateCommonSubexpressions: keeps blocks with KECCAK256, for the same reason.
- Bytecode.LocalTagsFit: one direction; with wide data references a tag may or may not fit, depending on the items.
- The position that UTF-8 validation reports for invalid input.
