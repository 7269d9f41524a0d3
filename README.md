# gem5 profiling probes, modelled in Dafny

This project models the profiling probes that gem5 uses to pick simulation
regions and to decide when to stop the simulation loop:

- **The LoopPoint basic-block-vector engine** (`LooppointAnalysis` and
  `LooppointAnalysisManager`). One listener per simulated core classifies each
  committed program counter once, on first encounter. The filters are
  micro-op, user mode, valid range and excluded ranges. Later occurrences are
  counted by the cached category alone.
  - The manager is shared by all listeners. It keeps the encountered,
    valid, block-end and backward-branch sets, the global basic-block
    vector, the first-seen block lengths, the backward-branch tally and the
    global instruction count.
  - A tallied backward branch requests a simulator exit once the region
    length is reached.
- **The data-movement tracker** (`DataMovementTracker`). Memory reads and
  writes are counted per `hex(virtual)&hex(physical)` key and per
  `hex(virtual)&hex(pc)` key. Basic blocks are profiled over an interval of
  instructions, with an exit request at a block end once the interval is
  long enough.
- **The batched instruction counters** (`LocalInstCounter` and
  `GlobalInstCounter`). Per-core local counts are flushed into one global
  count at a threshold. The global counter requests an exit at a target.
- **The user/non-user instruction counter** (`UserInstCounter` and
  `UserInstCounterManager`).
- **The exit-event generators** of the Python simulation loop: `exit`,
  `skip`, `switch`, the SimPoint checkpoint generator and the LoopPoint
  checkpoint generator.

Every probe object is a Dafny `class` whose fields are the C++ or Python
object's fields.
- Each class with state of its own has a `ghost function` that packs the
  fields into a datatype value (the `exit`, `skip` and `switch` generators
  hold none). Each state-changing method is proved to move that value exactly as
  a pure function says (`LooppointModel.Step`, `DataMovement.PcStep`,
  `GlobalInstTracker.CountInstStep`, `ExitEventGenerators.SimPointStep`, …).
- What the source promises is proved about those functions, one call at a
  time and along whole traces. Multi-core traces share one manager or one
  global counter.
- The simulator's exit call becomes a ghost counter `exitRequests` of exit
  requests raised.
- Checkpoints taken by the generators become a log of `Checkpoint` values
  (a SimPoint index or a LoopPoint region). `CheckpointName` renders each one
  as the directory name the generator writes, and is proved injective.

Modules:
- `Counts`: insert-or-increment and first-wins maps, and their sum.
- `Numerals`: base-16 and base-10 rendering, and parsing back.
- `LooppointModel`: the reference model of the LoopPoint engine.
- `LooppointAnalysis`: its two classes.
- `DataMovement`, `GlobalInstTracker`, `UserInstCounter` and
  `ExitEventGenerators`.

## Model

| member | source | states |
|---|---|---|
| Counts.Inc | src/cpu/probes/looppoint_analysis.cc:240-250 | insert-or-increment: the key's count rises by one (inserted as 1 if absent); every other key's count and the key set otherwise are unchanged |
| Counts.FirstWins | src/cpu/probes/looppoint_analysis.hh:168-173 | a recorded value is never overwritten; an absent key gets the new value; other entries are kept |
| Counts.IncTotal | src/cpu/probes/data_movement.cc:161-167 | insert-or-increment adds exactly one to the sum of a tally |
| Numerals.ToBase | src/cpu/probes/data_movement.hh:58-62 | stream formatting of a number: at least one digit, only lower-case digit characters, no leading zero, "0" exactly for zero |
| Numerals.RoundTrip | src/cpu/probes/data_movement.hh:58-62 | parsing the rendered digits gives the number back |
| Numerals.Injective | src/cpu/probes/data_movement.hh:58-62 | distinct numbers render differently |
| Numerals.DecInjective | src/python/gem5/simulate/exit_event_generators.py:152 | distinct naturals have distinct decimal renderings |
| Numerals.IntToStringInjective | src/python/gem5/simulate/exit_event_generators.py:210 | distinct integers have distinct Python `str` renderings |
| Numerals.Hex | src/cpu/probes/data_movement.hh:58-62 | the hex rendering never contains '&' and is "0" exactly for zero |
| Numerals.Dec | src/python/gem5/simulate/exit_event_generators.py:152 | the decimal rendering has no sign and is "0" exactly for zero |
| Numerals.IntToString | src/python/gem5/simulate/exit_event_generators.py:210 | Python `str` of an int starts with '-' exactly for a negative value |
| LooppointModel.Classify | src/cpu/probes/looppoint_analysis.cc:121-175 | first-encounter classification: rejected exactly for a non-last micro-op, a non-user-mode instruction, a pc outside a restricting valid range (end > 0, bounds inclusive) or inside any excluded range (bounds inclusive); an accepted pc ends a block exactly when it is control; it is a loop marker exactly when it is also direct, `npc < pc` and admitted by the marker range (end == 0 admits all) |
| LooppointModel.InitialManager | src/cpu/probes/looppoint_analysis.cc:208-217 | a fresh manager (empty sets and maps, zero counts) satisfies the manager invariant |
| LooppointModel.CountPc | src/cpu/probes/looppoint_analysis.cc:220-237 | the pc's tally rises by one, it becomes the most recent pc, and an exit is requested exactly when the global count has reached the region length at this call; nothing else changes |
| LooppointModel.CachedCategoryInvertsRecord | src/cpu/probes/looppoint_analysis.cc:96-117 | `CachedCategory` (which has no contract of its own) reads back the category a first classification filed with `Record`: the dispatch on later occurrences agrees with the first one |
| LooppointModel.Record | src/cpu/probes/looppoint_analysis.cc:151-171 | filing a new pc adds that pc alone to the classification sets (each grows, and by nothing but `pc`) and touches no count, map or exit request; what it files is read back by `CachedCategoryInvertsRecord` and `RecordPreservesInv` |
| LooppointModel.FinishBlock | src/cpu/probes/looppoint_analysis.cc:103-110 | at a block end the global and local vectors count the block once more, a length is recorded for it, and the listener's counter restarts at zero; `StepAtBlockEnd` pins down the rest |
| LooppointModel.Execute | src/cpu/probes/looppoint_analysis.cc:98-114 | counting an occurrence never reclassifies a pc, and a rejected pc is not counted at all; `StepCountsInstructions`, `StepAtBlockEnd` and `StepExitRequest` state the counting |
| LooppointModel.Step | src/cpu/probes/looppoint_analysis.cc:86-177 | every occurrence adds its pc to `encounteredPc` and no other pc; the lemmas below state the rest of its effect, `StepKeepsCategory` that every other encountered pc keeps its category |
| LooppointModel.StepClassifiesOnce | src/cpu/probes/looppoint_analysis.cc:96-119 | after any occurrence the pc is encountered; the classification sets only grow; an encountered pc leaves every set unchanged; a new pc's cached category afterwards is its classification |
| LooppointModel.StepKeepsCategory | src/cpu/probes/looppoint_analysis.cc:96-119 | classification is fixed once made: after any committed instruction, every pc already encountered keeps its cached category (a plain block end never becomes a loop marker) |
| LooppointModel.CachedDispatch | src/cpu/probes/looppoint_analysis.cc:96-117 | for an encountered pc the effect does not depend on the filters or on any event field other than the pc |
| LooppointModel.RejectedHasNoEffect | src/cpu/probes/looppoint_analysis.cc:119-146 | a pc rejected on first encounter only enters `encounteredPc`; on later occurrences it changes nothing at all |
| LooppointModel.StepCountsInstructions | src/cpu/probes/looppoint_analysis.cc:98-110 | every non-rejected occurrence adds exactly one to the global count; mid-block it adds one to the listener's block counter, at a block end the counter restarts at zero; a rejected occurrence leaves the listener unchanged |
| LooppointModel.StepAtBlockEnd | src/cpu/probes/looppoint_analysis.cc:103-110 | at a block end the local and global vectors count that block once more and no other; the block length (this instruction included) is recorded only if none is |
| LooppointModel.StepLoopMarker | src/cpu/probes/looppoint_analysis.cc:151-171 | a new pc enters `backwardBranches` exactly when accepted, control, direct, `npc < pc` and inside the marker range; it enters `bbEnd` exactly when accepted and control, even outside the marker range; it is tallied once exactly when it is a marker |
| LooppointModel.StepExitRequest | src/cpu/probes/looppoint_analysis.cc:111-114 | an exit is requested at an occurrence exactly when it is a loop marker and the global count (this instruction included) has reached the region length, on every such occurrence |
| LooppointModel.RecordPreservesInv | src/cpu/probes/looppoint_analysis.cc:151-175 | classifying a new pc keeps the sets nested and `validPc`, `bbEnd` disjoint, and files it by category |
| LooppointModel.ExecutePreservesInv | src/cpu/probes/looppoint_analysis.cc:98-114 | counting an occurrence keeps the manager's and every listener's invariant |
| LooppointModel.StepPreservesInv | src/cpu/probes/looppoint_analysis.cc:86-177 | one step keeps the manager invariant (nested, disjoint sets; tallies keyed by block ends; positive counts) and the invariant of every listener sharing the manager |
| LooppointModel.StepCore | src/cpu/probes/looppoint_analysis.cc:86-177 | an instruction on one core leaves the number of cores unchanged |
| LooppointModel.Run | src/cpu/probes/looppoint_analysis.cc:86-177 | a multi-core trace leaves the number of cores unchanged |
| LooppointModel.StepKeepsRejected | src/cpu/probes/looppoint_analysis.cc:96-119 | a rejected pc stays rejected after any step |
| LooppointModel.RecordKeepsTally | src/cpu/probes/looppoint_analysis.cc:151-171 | filing a new pc keeps every loop marker's tally equal to its global block count, since a new pc has neither yet |
| LooppointModel.ExecuteKeepsTally | src/cpu/probes/looppoint_analysis.cc:103-114 | counting an occurrence keeps that agreement when loop markers, and no plain block ends, are filed as backward branches |
| LooppointModel.StepKeepsTally | src/cpu/probes/looppoint_analysis.cc:109-113 | a step keeps every loop marker's tally equal to its global block count |
| LooppointModel.StepCoreKeeps | src/cpu/probes/looppoint_analysis.cc:86-177 | a step on any core keeps all invariants, growing sets, rejections and tally agreement |
| LooppointModel.RunPreservesInv | src/cpu/probes/looppoint_analysis.cc:86-177 | along any multi-core trace the invariants hold and the classification sets only grow |
| LooppointModel.StepCoreKeepsCategory | src/cpu/probes/looppoint_analysis.cc:96-119 | an instruction on any core keeps every encountered pc encountered and in its category |
| LooppointModel.RunKeepsCategory | src/cpu/probes/looppoint_analysis.cc:86-177 | along any multi-core trace, every pc already encountered keeps its cached category for the rest of the run |
| LooppointModel.RejectionIsPermanent | src/cpu/probes/looppoint_analysis.cc:119-146 | a rejected pc stays rejected along any trace and never appears in a vector, the length map or the tally |
| LooppointModel.RunKeepsTallyAgreement | src/cpu/probes/looppoint_analysis.cc:109-113 | without clears, each loop marker's tally equals its global block count along any trace |
| LooppointModel.LocalSumUpdate | src/cpu/probes/looppoint_analysis.cc:108-109 | replacing one core's listener changes the summed local count by that core's change |
| LooppointModel.ExecuteMovesBoth | src/cpu/probes/looppoint_analysis.cc:108-109 | counting an occurrence raises a block's global count by exactly what it adds to the stepping listener's local count |
| LooppointModel.StepMovesBoth | src/cpu/probes/looppoint_analysis.cc:86-177 | the same for a whole step, first encounter or not |
| LooppointModel.RunKeepsMerged | src/cpu/probes/looppoint_analysis.cc:108-109 | without clears, every block's global count is the sum of the cores' local counts along any trace |
| LooppointAnalysis.LooppointAnalysisManager.constructor | src/cpu/probes/looppoint_analysis.cc:208-217 | starts empty with zero counts and the given region length |
| LooppointAnalysis.LooppointAnalysisManager.CountPc | src/cpu/probes/looppoint_analysis.cc:220-237 | moves the manager as `LooppointModel.CountPc` says |
| LooppointAnalysis.LooppointAnalysisManager.UpdateBBV | src/cpu/probes/looppoint_analysis.cc:240-250 | insert-or-increment of the global vector only |
| LooppointAnalysis.LooppointAnalysisManager.IfPcBackwardBranch | src/cpu/probes/looppoint_analysis.hh:112-119 | membership in `backwardBranches`, no state change |
| LooppointAnalysis.LooppointAnalysisManager.IfPcValid | src/cpu/probes/looppoint_analysis.hh:121-128 | membership in `validPc`, no state change |
| LooppointAnalysis.LooppointAnalysisManager.IfPcEncountered | src/cpu/probes/looppoint_analysis.hh:130-137 | membership in `encounteredPc`, no state change |
| LooppointAnalysis.LooppointAnalysisManager.IfPcBBEnd | src/cpu/probes/looppoint_analysis.hh:139-146 | membership in `bbEnd`, no state change |
| LooppointAnalysis.LooppointAnalysisManager.UpdateValidPc | src/cpu/probes/looppoint_analysis.hh:148-151 | inserts into `validPc` only |
| LooppointAnalysis.LooppointAnalysisManager.UpdatePcEncountered | src/cpu/probes/looppoint_analysis.hh:153-156 | inserts into `encounteredPc` only |
| LooppointAnalysis.LooppointAnalysisManager.UpdateBackwardBranches | src/cpu/probes/looppoint_analysis.hh:158-161 | inserts into `backwardBranches` only |
| LooppointAnalysis.LooppointAnalysisManager.UpdateBBEnd | src/cpu/probes/looppoint_analysis.hh:163-166 | inserts into `bbEnd` only |
| LooppointAnalysis.LooppointAnalysisManager.UpdateBBInstMap | src/cpu/probes/looppoint_analysis.hh:168-173 | first-wins insert into the length map; an existing entry is never overwritten |
| LooppointAnalysis.LooppointAnalysisManager.GetGlobalBBV | src/cpu/probes/looppoint_analysis.hh:175-178 | returns the global vector, no state change |
| LooppointAnalysis.LooppointAnalysisManager.ClearGlobalBBV | src/cpu/probes/looppoint_analysis.hh:180-183 | empties the global vector only; tally, lengths and sets unchanged |
| LooppointAnalysis.LooppointAnalysisManager.GetGlobalInst | src/cpu/probes/looppoint_analysis.hh:185-188 | returns the global count, no state change |
| LooppointAnalysis.LooppointAnalysisManager.ClearGlobalInst | src/cpu/probes/looppoint_analysis.hh:190-193 | zeroes the global count only |
| LooppointAnalysis.LooppointAnalysisManager.IncreaseGlobalInst | src/cpu/probes/looppoint_analysis.hh:195-198 | adds exactly one to the global count only |
| LooppointAnalysis.LooppointAnalysisManager.GetGlobalMostRecentPc | src/cpu/probes/looppoint_analysis.hh:200-203 | returns the most recent pc, no state change |
| LooppointAnalysis.LooppointAnalysisManager.GetValidPc | src/cpu/probes/looppoint_analysis.hh:205-208 | returns `validPc`, no state change |
| LooppointAnalysis.LooppointAnalysisManager.GetBackwardBranches | src/cpu/probes/looppoint_analysis.hh:210-213 | returns `backwardBranches`, no state change |
| LooppointAnalysis.LooppointAnalysisManager.GetBBEnd | src/cpu/probes/looppoint_analysis.hh:215-218 | returns `bbEnd`, no state change |
| LooppointAnalysis.LooppointAnalysisManager.GetEncounteredPc | src/cpu/probes/looppoint_analysis.hh:220-223 | returns `encounteredPc`, no state change |
| LooppointAnalysis.LooppointAnalysisManager.GetBBInstMap | src/cpu/probes/looppoint_analysis.hh:225-228 | returns the length map, no state change |
| LooppointAnalysis.LooppointAnalysisManager.GetCounter | src/cpu/probes/looppoint_analysis.hh:230-233 | returns the tally, no state change |
| LooppointAnalysis.LooppointAnalysis.constructor | src/cpu/probes/looppoint_analysis.cc:34-70 | keeps the manager reference and filters; block counter zero, local vector empty |
| LooppointAnalysis.LooppointAnalysis.UpdateLocalBBV | src/cpu/probes/looppoint_analysis.cc:72-83 | insert-or-increment of this listener's local vector only |
| LooppointAnalysis.LooppointAnalysis.FinishBlock | src/cpu/probes/looppoint_analysis.cc:107-110 | block-end bookkeeping on listener and manager, as `LooppointModel.FinishBlock` says |
| LooppointAnalysis.LooppointAnalysis.InExcludedRange | src/cpu/probes/looppoint_analysis.cc:137-146 | the loop over the excluded ranges finds one holding the pc (bounds inclusive) exactly when one exists |
| LooppointAnalysis.LooppointAnalysis.CountEncountered | src/cpu/probes/looppoint_analysis.cc:96-117 | an encountered pc is counted by its cached category alone, as `LooppointModel.Execute` says |
| LooppointAnalysis.LooppointAnalysis.ClassifyNew | src/cpu/probes/looppoint_analysis.cc:119-177 | a new pc is marked encountered, passed through the filters in order and, if admitted, counted, as `LooppointModel.Step` says for a new pc |
| LooppointAnalysis.LooppointAnalysis.CountNew | src/cpu/probes/looppoint_analysis.cc:148-175 | an admitted new pc is filed under its category and counted, as `LooppointModel.Record` then `LooppointModel.Execute` say |
| LooppointAnalysis.LooppointAnalysis.CheckPc | src/cpu/probes/looppoint_analysis.cc:86-177 | changes only this listener and the shared manager, exactly as `LooppointModel.Step` says |
| LooppointAnalysis.LooppointAnalysis.GetLocalBBV | src/cpu/probes/looppoint_analysis.hh:78-81 | returns the local vector, no state change |
| LooppointAnalysis.LooppointAnalysis.ClearLocalBBV | src/cpu/probes/looppoint_analysis.hh:83-86 | empties this listener's local vector; the shared manager is untouched |
| DataMovement.AddrToHex | src/cpu/probes/data_movement.hh:58-62 | the rendering parses back to the address and holds no '&' |
| DataMovement.FirstIndex | src/cpu/probes/data_movement.hh:64-68 | the first position of the separator in a key |
| DataMovement.SeparatorPosition | src/cpu/probes/data_movement.hh:64-68 | in `hex(a) & hex(b)` the first '&' stands right after `hex(a)` |
| DataMovement.CreatePairParses | src/cpu/probes/data_movement.hh:64-68 | `CreatePair` (which has no contract of its own) builds a key that splits back at its first '&' into the two hex renderings |
| DataMovement.CreatePairInjective | src/cpu/probes/data_movement.hh:64-68 | distinct address pairs never share a key |
| DataMovement.ReadRequest | src/cpu/probes/data_movement.cc:47-78 | the (virtual, physical) and (virtual, pc) read keys each count once more (inserted as 1), every other key keeps its count, and nothing outside the two read maps changes |
| DataMovement.WriteRequest | src/cpu/probes/data_movement.cc:99-130 | the same on the two write maps, leaving the read maps and everything else unchanged |
| DataMovement.RequestsKeepPositive | src/cpu/probes/data_movement.cc:58-67 | every stored request count stays at least one |
| DataMovement.PcStep | src/cpu/probes/data_movement.cc:151-184 | both counters rise by one; at a control instruction the block is counted once more, its length recorded only if absent, the block counter restarts, and an exit is requested exactly when the interval count has reached the interval length; a non-control instruction touches no map |
| DataMovement.BlockCountsBoundedByInterval | src/cpu/probes/data_movement.cc:157-167 | along any trace without clears the interval count grows by the trace length and the sum of block counts by at most that much, so from the constructed tracker it never exceeds the interval count |
| DataMovement.PcStepBlockTotal | src/cpu/probes/data_movement.cc:160-167 | one instruction adds at most one to the sum of block counts |
| DataMovement.NonControlNeverExits | src/cpu/probes/data_movement.cc:160-183 | a non-control instruction never requests the exit |
| DataMovement.DataMovementTracker.constructor | src/cpu/probes/data_movement.cc:32-45 | counters zero, maps empty, the given interval length |
| DataMovement.DataMovementTracker.GetReadRequest | src/cpu/probes/data_movement.cc:47-78 | moves the tracker as `ReadRequest` says |
| DataMovement.DataMovementTracker.GetWriteRequest | src/cpu/probes/data_movement.cc:99-130 | moves the tracker as `WriteRequest` says |
| DataMovement.DataMovementTracker.GetPc | src/cpu/probes/data_movement.cc:151-184 | moves the tracker as `PcStep` says |
| DataMovement.DataMovementTracker.CountBlock | src/cpu/probes/data_movement.cc:161-167 | insert-or-increment of the block counts only |
| DataMovement.DataMovementTracker.RecordBlockLength | src/cpu/probes/data_movement.cc:168-172 | first-wins insert of the block length only |
| DataMovement.DataMovementTracker.GetReadvAddrpAddrCount | src/cpu/probes/data_movement.hh:93-96 | returns the map, no state change |
| DataMovement.DataMovementTracker.ClearReadvAddrpAddrCount | src/cpu/probes/data_movement.hh:98-101 | empties that map only |
| DataMovement.DataMovementTracker.GetWritevAddrpAddrCount | src/cpu/probes/data_movement.hh:103-106 | returns the map, no state change |
| DataMovement.DataMovementTracker.ClearWritevAddrpAddrCount | src/cpu/probes/data_movement.hh:108-111 | empties that map only |
| DataMovement.DataMovementTracker.GetReadvAddrPcCount | src/cpu/probes/data_movement.hh:113-116 | returns the map, no state change |
| DataMovement.DataMovementTracker.ClearReadvAddrPcCount | src/cpu/probes/data_movement.hh:118-121 | empties that map only |
| DataMovement.DataMovementTracker.GetWritevAddrPcCount | src/cpu/probes/data_movement.hh:123-126 | returns the map, no state change |
| DataMovement.DataMovementTracker.ClearWritevAddrPcCount | src/cpu/probes/data_movement.hh:128-131 | empties that map only |
| DataMovement.DataMovementTracker.GetvAddrMoveCount | src/cpu/probes/data_movement.hh:133-136 | returns the map, no state change |
| DataMovement.DataMovementTracker.ClearvAddrMoveCount | src/cpu/probes/data_movement.hh:138-141 | empties that map only |
| DataMovement.DataMovementTracker.GetBasicBlockCount | src/cpu/probes/data_movement.hh:143-146 | returns the map, no state change |
| DataMovement.DataMovementTracker.ClearBasicBlockCount | src/cpu/probes/data_movement.hh:148-151 | empties the block counts only; first-seen lengths survive |
| DataMovement.DataMovementTracker.GetBasicBlockInstProfile | src/cpu/probes/data_movement.hh:153-156 | returns the map, no state change |
| DataMovement.DataMovementTracker.GetIntervalCount | src/cpu/probes/data_movement.hh:158-161 | returns the interval count, no state change |
| DataMovement.DataMovementTracker.ClearIntervalCount | src/cpu/probes/data_movement.hh:163-166 | zeroes the interval count without touching any map |
| GlobalInstTracker.AddToGlobal | src/cpu/probes/global_inst_tracker.hh:21-26 | the batch is added; an exit is requested exactly when the sum has reached the target |
| GlobalInstTracker.CountInstStep | src/cpu/probes/global_inst_tracker.hh:47-53 | global plus local count rises by exactly one; the local count empties exactly when it reaches the threshold, and only then do the global count or the exit requests change; with threshold ≥ 1 the local count stays below it |
| GlobalInstTracker.SingleCoreBatches | src/cpu/probes/global_inst_tracker.hh:47-53 | on one core the global count receives only whole batches of the threshold, with the remainder held locally below the threshold |
| GlobalInstTracker.LocalSumUpdate | src/cpu/probes/global_inst_tracker.hh:47-53 | replacing one core's local counter changes the sum of local counts by that core's change |
| GlobalInstTracker.RunCores | src/cpu/probes/global_inst_tracker.hh:47-53 | several cores sharing one global counter keep their number |
| GlobalInstTracker.RunCoresConserves | src/cpu/probes/global_inst_tracker.hh:22-53 | along any multi-core trace the global count plus all local counts grows by exactly the number of instructions |
| GlobalInstTracker.GlobalInstCounter.constructor | src/cpu/probes/global_inst_counter.cc:34-40 | the given target, count zero |
| GlobalInstTracker.GlobalInstCounter.UpdateGlobalInst | src/cpu/probes/global_inst_tracker.hh:21-26 | moves the counter as `AddToGlobal` says |
| GlobalInstTracker.GlobalInstCounter.ClearGlobalCount | src/cpu/probes/global_inst_tracker.hh:27-29 | zeroes the global count only |
| GlobalInstTracker.GlobalInstCounter.UpdateTargetInst | src/cpu/probes/global_inst_tracker.hh:30-32 | replaces the target only |
| GlobalInstTracker.LocalInstCounter.constructor | src/cpu/probes/global_inst_counter.cc:42-50 | keeps the global reference and threshold; local count zero |
| GlobalInstTracker.LocalInstCounter.CountInst | src/cpu/probes/global_inst_tracker.hh:47-53 | moves this counter and the shared global one as `CountInstStep` says |
| GlobalInstTracker.LocalInstCounter.ClearLocalCount | src/cpu/probes/global_inst_tracker.hh:54-56 | zeroes the local count only |
| GlobalInstTracker.LocalInstCounter.UpdateThreshold | src/cpu/probes/global_inst_tracker.hh:57-59 | replaces the threshold only |
| UserInstCounter.CheckInstStep | src/cpu/probes/user_inst_counter.cc:54-62 | exactly one tally rises, by one: the user tally for a user-mode instruction, the other otherwise |
| UserInstCounter.Occurrences | src/cpu/probes/user_inst_counter.cc:54-62 | counts entries of a trace, at most its length |
| UserInstCounter.TalliesCountTrace | src/cpu/probes/user_inst_counter.cc:54-62 | along a trace the user tally grows by the number of user-mode instructions and the other tally by the rest |
| UserInstCounter.OccurrencesPartition | src/cpu/probes/user_inst_counter.cc:54-62 | every instruction is counted in exactly one tally |
| UserInstCounter.Registering | src/cpu/probes/user_inst_counter.cc:23-32 | registration at start-up adds one listener exactly when the flag is set |
| UserInstCounter.Started | src/cpu/probes/user_inst_counter.cc:34-45 | with no listener, registers one and sets the flag; otherwise changes nothing |
| UserInstCounter.StartAfterRegistering | src/cpu/probes/user_inst_counter.cc:23-45 | starting a listener that registered at start-up (flag set, one listener) registers no second listener |
| UserInstCounter.StartIdempotent | src/cpu/probes/user_inst_counter.cc:34-45 | starting twice registers no second listener |
| UserInstCounter.UserInstCounterManager.constructor | src/cpu/probes/user_inst_counter.cc:5-11 | both tallies start at zero |
| UserInstCounter.UserInstCounterManager.IncreaseUserInstCount | src/cpu/probes/user_inst_counter.hh:21 | adds one to the user tally only |
| UserInstCounter.UserInstCounterManager.IncreaseNoneUserInstCount | src/cpu/probes/user_inst_counter.hh:22 | adds one to the non-user tally only |
| UserInstCounter.UserInstCounterManager.GetUserInstCount | src/cpu/probes/user_inst_counter.hh:23 | returns the user tally, no state change |
| UserInstCounter.UserInstCounterManager.GetNoneUserInstCount | src/cpu/probes/user_inst_counter.hh:24 | returns the non-user tally, no state change |
| UserInstCounter.UserInstCounterManager.ResetUserInstCount | src/cpu/probes/user_inst_counter.hh:25 | zeroes the user tally only |
| UserInstCounter.UserInstCounterManager.ResetNoneUserInstCount | src/cpu/probes/user_inst_counter.hh:26 | zeroes the non-user tally only |
| UserInstCounter.UserInstCounter.constructor | src/cpu/probes/user_inst_counter.cc:13-21 | keeps the manager and the flag; no listener registered |
| UserInstCounter.UserInstCounter.Create | src/cpu/probes/user_inst_counter.cc:13-21 | a missing manager is the fatal error; otherwise a new listener on that manager |
| UserInstCounter.UserInstCounter.RegProbeListeners | src/cpu/probes/user_inst_counter.cc:23-32 | moves the registration as `Registering` says |
| UserInstCounter.UserInstCounter.StartListening | src/cpu/probes/user_inst_counter.cc:34-45 | moves the registration as `Started` says |
| UserInstCounter.UserInstCounter.StopListening | src/cpu/probes/user_inst_counter.cc:47-52 | clears the flag and every listener |
| UserInstCounter.UserInstCounter.CheckInst | src/cpu/probes/user_inst_counter.cc:54-62 | changes only the manager, as `CheckInstStep` says |
| ExitEventGenerators.ExitGenerator.Step | src/python/gem5/simulate/exit_event_generators.py:58-64 | every resume yields True |
| ExitEventGenerators.SkipGenerator.Step | src/python/gem5/simulate/exit_event_generators.py:129-135 | every resume yields False |
| ExitEventGenerators.SwitchGenerator.constructor | src/python/gem5/simulate/exit_event_generators.py:73 | records whether the processor is switchable |
| ExitEventGenerators.SwitchGenerator.Step | src/python/gem5/simulate/exit_event_generators.py:73-78 | yields False when the processor is not switchable, the switch's result otherwise |
| ExitEventGenerators.CheckpointName | src/python/gem5/simulate/exit_event_generators.py:210 | the fifth character of a checkpoint directory name tells the kinds apart: 'S' for `cpt.SimPoint{count}` (line 152), 'R' for `cpt.Region{region}`; `CheckpointNameInjective` builds on it |
| ExitEventGenerators.CheckpointNameInjective | src/python/gem5/simulate/exit_event_generators.py:210 | different checkpoints are saved under different directory names: two LoopPoint regions (`cpt.Region{region}`), two SimPoints (`cpt.SimPoint{count}`, line 152), or one of each |
| ExitEventGenerators.SimPointCheckpoints | src/python/gem5/simulate/exit_event_generators.py:152-165 | the checkpoints of a range of SimPoints, one per index |
| ExitEventGenerators.SimPointCheckpointsAt | src/python/gem5/simulate/exit_event_generators.py:152-165 | entry k of such a range is SimPoint `a + k`, so checkpoints come in increasing index order |
| ExitEventGenerators.SimPointCheckpointsDistinct | src/python/gem5/simulate/exit_event_generators.py:152-165 | the checkpoints of a range are saved under pairwise different names |
| ExitEventGenerators.SimPointCheckpointsAppend | src/python/gem5/simulate/exit_event_generators.py:152-165 | consecutive ranges concatenate |
| ExitEventGenerators.RunEnd | src/python/gem5/simulate/exit_event_generators.py:160-165 | the end of the run of equal starts beginning at an index: past that index, all starts before it equal, the start after it different |
| ExitEventGenerators.RunEndIs | src/python/gem5/simulate/exit_event_generators.py:160-165 | `RunEnd` is the only index that ends the run of equal starts |
| ExitEventGenerators.SimPointStep | src/python/gem5/simulate/exit_event_generators.py:149-171 | a resume checkpoints SimPoint `count` and every following one with the same start, then yields whether the list is exhausted; past the end it checkpoints `count` and raises IndexError; a finished generator raises StopIteration |
| ExitEventGenerators.SimPointFullRun | src/python/gem5/simulate/exit_event_generators.py:149-171 | resuming while False yields True within the number of remaining SimPoints, and the log then holds every SimPoint once, in increasing order |
| ExitEventGenerators.SimPointDriveUnfold | src/python/gem5/simulate/exit_event_generators.py:151-171 | one resume of an unfinished run advances past at least one SimPoint, logs exactly the SimPoints it passes, and the drive continues from there unless it yielded True |
| ExitEventGenerators.SimPointFromStart | src/python/gem5/simulate/exit_event_generators.py:148-171 | a fresh generator over a non-empty list yields True within `len` resumes with every SimPoint logged once, in order |
| ExitEventGenerators.SimPointEmptyList | src/python/gem5/simulate/exit_event_generators.py:148-153 | over an empty list the first resume checkpoints SimPoint 0, saved as `cpt.SimPoint0`, and raises IndexError |
| ExitEventGenerators.TakeRun | src/python/gem5/simulate/exit_event_generators.py:152-165 | the generator's inner loop, on its locals: it stops at the end of the run of equal starts, remembers the last start read, and logs every SimPoint of the run once, in order |
| ExitEventGenerators.SimPointGenerator.constructor | src/python/gem5/simulate/exit_event_generators.py:148-150 | count 0, last start -1, empty log |
| ExitEventGenerators.SimPointGenerator.Step | src/python/gem5/simulate/exit_event_generators.py:151-171 | the generator loop moves the state as `SimPointStep` says |
| ExitEventGenerators.LoopPointInitial | src/python/gem5/simulate/exit_event_generators.py:195-199 | `len(targets)` pairs with `exit_when_empty`, -1 without |
| ExitEventGenerators.Truthy | src/python/gem5/simulate/exit_event_generators.py:207 | Python truthiness of the current region; no contract of its own, it gates the checkpoint and the relative-count update in `LoopPointStep` |
| ExitEventGenerators.LoopPointStep | src/python/gem5/simulate/exit_event_generators.py:201-214 | with pairs left, counts one down and yields False, checkpointing `cpt.Region{region}` only for a truthy region and updating relative counts only when also asked to; at zero yields True; afterwards raises StopIteration |
| ExitEventGenerators.LoopPointRun | src/python/gem5/simulate/exit_event_generators.py:201-214 | one outcome per resume |
| ExitEventGenerators.LoopPointCountsDown | src/python/gem5/simulate/exit_event_generators.py:195-214 | with `n >= 0` pairs the generator yields False on the first `n` resumes, True on the next, and raises StopIteration after; with no targets it yields True at once |
| ExitEventGenerators.FinishedRaises | src/python/gem5/simulate/exit_event_generators.py:214 | a finished generator only raises StopIteration |
| ExitEventGenerators.LoopPointNeverExits | src/python/gem5/simulate/exit_event_generators.py:197-211 | without `exit_when_empty` the generator yields False on every resume, never True |
| ExitEventGenerators.LoopPointGenerator.constructor | src/python/gem5/simulate/exit_event_generators.py:195-199 | starts as `LoopPointInitial` says |
| ExitEventGenerators.LoopPointGenerator.Step | src/python/gem5/simulate/exit_event_generators.py:201-214 | the generator loop moves the state as `LoopPointStep` says |

## Left out

- Probe plumbing. Listener registration, `regProbeListeners`, `startListening`
  and `stopListening` of `LooppointAnalysis`, `DataMovementTracker` and
  `LocalInstCounter` are host dispatch and are not modelled. Only
  `UserInstCounter` keeps a registration flag and a listener count.
- The simulator exit call, `m5.checkpoint`, `m5.curTick` and processor
  switching are foreign calls. An exit is a ghost count of exit requests. A
  checkpoint is an entry in a log; the directory its name is joined to is
  left out. The result of `processor.switch()` is a parameter.
- The committed-instruction details (thread, pc state, static instruction,
  user mode) are fields of an event record. A memory request is
  `(vAddr, pAddr, pc)`, standing for the virtual and physical page numbers
  and the pc.
- `DPRINTF` tracing and instruction disassembly are diagnostics only.
  `updateBackwardBranches` takes the pc alone, as it is declared
  (src/cpu/probes/looppoint_analysis.hh:158-161); the extra disassembly
  argument at its call site is dropped.
- The commented-out `curvAddrpAddr` / `vAddrMoveCount` updates in the request
  handlers are dead code, so `vAddrMoveCount` is never filled.
- `getPc` follows the definition's `(pc, isControl)` signature
  (src/cpu/probes/data_movement.cc:152). The header declares a different
  parameter type (src/cpu/probes/data_movement.hh:87).
- `smarts_generator` and the dump, reset and checkpoint-on-tick generators
  are stats and file I/O with no logic of their own. The default-warning
  decorator only prints.
- Integer width: all counters and addresses are unbounded naturals, so
  uint64 wrap-around is not modelled.
- Concurrency: events from several cores arrive one at a time, as
  sequential calls on listeners sharing one manager or one global counter.
- The per-core wiring, the processor configuration and the Python parameter
  declarations are configuration. The only exception is the default
  `AddrRange(0, 0)`, which the model reads as "unrestricted".
- `startListening` in `UserInstCounter` names a listener type through a
  typedef that is split across a line break
  (src/cpu/probes/user_inst_counter.cc:38-39). The model follows the evident
  intent: one listener is registered.
- Exit requests from `countPc`: the code requests an exit on every call
  while `globalInstCounter >= regionLength`
  (src/cpu/probes/looppoint_analysis.cc:233-236), so once a run is past the
  threshold it requests an exit at each tallied backward branch, never in the
  middle of a loop body. The model does the same.
- Backward branches: a backward branch is a direct control instruction with
  `npc < pc` (src/cpu/probes/looppoint_analysis.cc:167), and the model tests
  exactly that.
