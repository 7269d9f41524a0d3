/** The LoopPoint analysis probes as objects: one LooppointAnalysisManager
    shared by several LooppointAnalysis listeners (one per simulated core).
    Every method that changes state is proved to move the objects' state
    exactly as the reference model in LooppointModel says. */
module LooppointAnalysis {
  import opened Counts
  import opened LooppointModel

  /** The manager: classification sets, global vector, first-seen block
      lengths, backward-branch tally and the global instruction count. */
  class LooppointAnalysisManager {
    var counter: map<Addr, nat>
    var globalBBV: map<Addr, nat>
    var bbInstMap: map<Addr, nat>
    const regionLength: nat
    var globalInstCounter: nat
    var mostRecentPc: Addr
    var backwardBranches: set<Addr>
    var validPc: set<Addr>
    var bbEnd: set<Addr>
    var encounteredPc: set<Addr>
    /** Number of simulator-exit requests raised so far. */
    ghost var exitRequests: nat

    ghost function State(): ManagerState
      reads this
    {
      ManagerState(counter, globalBBV, bbInstMap, regionLength, globalInstCounter, mostRecentPc,
                   backwardBranches, validPc, bbEnd, encounteredPc, exitRequests)
    }

    constructor (regionLen: nat)
      ensures State() == InitialManager(regionLen)
    {
      regionLength := regionLen;
      globalInstCounter := 0;
      mostRecentPc := 0;
      counter, globalBBV, bbInstMap := map[], map[], map[];
      backwardBranches, validPc, bbEnd, encounteredPc := {}, {}, {}, {};
      exitRequests := 0;
    }

    /** Tallies a backward branch and requests an exit on every call made
        while the global count has reached the region length. */
    method CountPc(pc: Addr)
      modifies this
      ensures State() == LooppointModel.CountPc(old(State()), pc)
      ensures exitRequests == old(exitRequests) + (if globalInstCounter >= regionLength then 1 else 0)
      ensures Count(counter, pc) == Count(old(counter), pc) + 1 && mostRecentPc == pc
    {
      if pc !in counter {
        counter := counter[pc := 1];
      } else {
        counter := counter[pc := counter[pc] + 1];
      }
      mostRecentPc := pc;
      if globalInstCounter >= regionLength {
        exitRequests := exitRequests + 1;
      }
    }

    /** Counts one more execution of the block ending at `pc` globally. */
    method UpdateBBV(pc: Addr)
      modifies this
      ensures State() == old(State()).(globalBBV := Inc(old(globalBBV), pc))
    {
      if pc !in globalBBV {
        globalBBV := globalBBV[pc := 1];
      } else {
        globalBBV := globalBBV[pc := globalBBV[pc] + 1];
      }
    }

    method IfPcBackwardBranch(pc: Addr) returns (b: bool)
      ensures b <==> pc in backwardBranches
    {
      b := pc in backwardBranches;
    }

    method IfPcValid(pc: Addr) returns (b: bool)
      ensures b <==> pc in validPc
    {
      b := pc in validPc;
    }

    method IfPcEncountered(pc: Addr) returns (b: bool)
      ensures b <==> pc in encounteredPc
    {
      b := pc in encounteredPc;
    }

    method IfPcBBEnd(pc: Addr) returns (b: bool)
      ensures b <==> pc in bbEnd
    {
      b := pc in bbEnd;
    }

    method UpdateValidPc(pc: Addr)
      modifies this
      ensures State() == old(State()).(validPc := old(validPc) + {pc})
    {
      validPc := validPc + {pc};
    }

    method UpdatePcEncountered(pc: Addr)
      modifies this
      ensures State() == old(State()).(encounteredPc := old(encounteredPc) + {pc})
    {
      encounteredPc := encounteredPc + {pc};
    }

    method UpdateBackwardBranches(pc: Addr)
      modifies this
      ensures State() == old(State()).(backwardBranches := old(backwardBranches) + {pc})
    {
      backwardBranches := backwardBranches + {pc};
    }

    method UpdateBBEnd(pc: Addr)
      modifies this
      ensures State() == old(State()).(bbEnd := old(bbEnd) + {pc})
    {
      bbEnd := bbEnd + {pc};
    }

    /** Records a block length unless one is already recorded. */
    method UpdateBBInstMap(pc: Addr, instCount: nat)
      modifies this
      ensures State() == old(State()).(bbInstMap := FirstWins(old(bbInstMap), pc, instCount))
      ensures pc in old(bbInstMap) ==> bbInstMap == old(bbInstMap)
    {
      if pc !in bbInstMap {
        bbInstMap := bbInstMap[pc := instCount];
      }
    }

    method GetGlobalBBV() returns (r: map<Addr, nat>)
      ensures r == globalBBV
    {
      r := globalBBV;
    }

    /** Empties the global vector only; tallies, lengths and sets stay. */
    method ClearGlobalBBV()
      modifies this
      ensures State() == old(State()).(globalBBV := map[])
    {
      globalBBV := map[];
    }

    method GetGlobalInst() returns (r: nat)
      ensures r == globalInstCounter
    {
      r := globalInstCounter;
    }

    method ClearGlobalInst()
      modifies this
      ensures State() == old(State()).(globalInstCounter := 0)
    {
      globalInstCounter := 0;
    }

    method IncreaseGlobalInst()
      modifies this
      ensures State() == old(State()).(globalInstCounter := old(globalInstCounter) + 1)
    {
      globalInstCounter := globalInstCounter + 1;
    }

    method GetGlobalMostRecentPc() returns (r: Addr)
      ensures r == mostRecentPc
    {
      r := mostRecentPc;
    }

    method GetValidPc() returns (r: set<Addr>)
      ensures r == validPc
    {
      r := validPc;
    }

    method GetBackwardBranches() returns (r: set<Addr>)
      ensures r == backwardBranches
    {
      r := backwardBranches;
    }

    method GetBBEnd() returns (r: set<Addr>)
      ensures r == bbEnd
    {
      r := bbEnd;
    }

    method GetEncounteredPc() returns (r: set<Addr>)
      ensures r == encounteredPc
    {
      r := encounteredPc;
    }

    method GetBBInstMap() returns (r: map<Addr, nat>)
      ensures r == bbInstMap
    {
      r := bbInstMap;
    }

    method GetCounter() returns (r: map<Addr, nat>)
      ensures r == counter
    {
      r := counter;
    }
  }

  /** A per-core listener: its filters, the instructions since its last block
      end, and its local basic-block vector. */
  class LooppointAnalysis {
    const lpamanager: LooppointAnalysisManager
    const bbValidAddrRange: AddrRange
    const markerValidAddrRange: AddrRange
    const bbExcludedAddrRanges: seq<AddrRange>
    const ifListeningFromStart: bool
    var bbInstCounter: nat
    var localBBV: map<Addr, nat>

    ghost function Config(): Filters {
      Filters(bbValidAddrRange, markerValidAddrRange, bbExcludedAddrRanges)
    }

    ghost function State(): ListenerState
      reads this
    {
      ListenerState(bbInstCounter, localBBV)
    }

    constructor (manager: LooppointAnalysisManager, bbValid: AddrRange, markerValid: AddrRange,
                 excluded: seq<AddrRange>, startListening: bool)
      ensures lpamanager == manager && ifListeningFromStart == startListening
      ensures Config() == Filters(bbValid, markerValid, excluded)
      ensures State() == ListenerState(0, map[])
    {
      lpamanager := manager;
      bbValidAddrRange := bbValid;
      markerValidAddrRange := markerValid;
      bbExcludedAddrRanges := excluded;
      ifListeningFromStart := startListening;
      bbInstCounter := 0;
      localBBV := map[];
    }

    method UpdateLocalBBV(pc: Addr)
      modifies this
      ensures State() == old(State()).(localBBV := Inc(old(localBBV), pc))
    {
      if pc !in localBBV {
        localBBV := localBBV[pc := 1];
      } else {
        localBBV := localBBV[pc := localBBV[pc] + 1];
      }
    }

    /** Block-end bookkeeping shared by both paths of CheckPc. */
    method FinishBlock(pc: Addr)
      modifies this, lpamanager
      ensures (lpamanager.State(), State()) == LooppointModel.FinishBlock(old(lpamanager.State()), old(State()), pc)
    {
      lpamanager.UpdateBBInstMap(pc, bbInstCounter);
      UpdateLocalBBV(pc);
      lpamanager.UpdateBBV(pc);
      bbInstCounter := 0;
    }

    /** Whether `pc` lies in one of this listener's excluded ranges. */
    method InExcludedRange(pc: Addr) returns (excluded: bool)
      ensures excluded == Excluded(bbExcludedAddrRanges, pc)
    {
      var i := 0;
      while i < |bbExcludedAddrRanges|
        invariant 0 <= i <= |bbExcludedAddrRanges|
        invariant forall j :: 0 <= j < i ==> !InRange(bbExcludedAddrRanges[j], pc)
      {
        if pc >= bbExcludedAddrRanges[i].start && pc <= bbExcludedAddrRanges[i].end {
          return true;
        }
        i := i + 1;
      }
      return false;
    }

    /** One committed instruction: dispatched on the cached category when the
        manager has seen `e.pc` before, classified through the filters
        otherwise. Changes this listener and the shared manager only. */
    method CheckPc(e: CommitEvent)
      modifies this, lpamanager
      ensures (lpamanager.State(), State()) == Step(Config(), old(lpamanager.State()), old(State()), e)
    {
      var encountered := lpamanager.IfPcEncountered(e.pc);
      if encountered {
        CountEncountered(e.pc);
      } else {
        ClassifyNew(e);
      }
    }

    /** A later occurrence: counted by the category cached for `pc`. */
    method CountEncountered(pc: Addr)
      requires pc in lpamanager.encounteredPc
      modifies this, lpamanager
      ensures (lpamanager.State(), State()) == Execute(old(lpamanager.State()), old(State()), pc, CachedCategory(old(lpamanager.State()), pc))
    {
      var valid := lpamanager.IfPcValid(pc);
      if valid {
        lpamanager.IncreaseGlobalInst();
        bbInstCounter := bbInstCounter + 1;
      } else {
        var blockEnd := lpamanager.IfPcBBEnd(pc);
        if blockEnd {
          bbInstCounter := bbInstCounter + 1;
          lpamanager.IncreaseGlobalInst();
          FinishBlock(pc);
          var backward := lpamanager.IfPcBackwardBranch(pc);
          if backward {
            lpamanager.CountPc(pc);
          }
        }
      }
    }

    /** A first encounter: marked encountered, then filtered, filed and
        counted as its classification says. */
    method ClassifyNew(e: CommitEvent)
      requires e.pc !in lpamanager.encounteredPc
      modifies this, lpamanager
      ensures (lpamanager.State(), State()) == Step(Config(), old(lpamanager.State()), old(State()), e)
    {
      var pc := e.pc;
      lpamanager.UpdatePcEncountered(pc);

      if e.isMicroop && !e.isLastMicroop {
        return;
      }
      if !e.inUserMode {
        return;
      }
      if bbValidAddrRange.end > 0 && (pc < bbValidAddrRange.start || pc > bbValidAddrRange.end) {
        return;
      }
      var excluded := InExcludedRange(pc);
      if excluded {
        return;
      }
      CountNew(e);
    }

    /** The counting of a new `pc` the filters let through: it is filed
        under its category and counted. */
    method CountNew(e: CommitEvent)
      requires Classify(Config(), e) != Rejected
      modifies this, lpamanager
      ensures (lpamanager.State(), State())
              == Execute(Record(old(lpamanager.State()), e.pc, Classify(Config(), e)), old(State()), e.pc, Classify(Config(), e))
    {
      var pc := e.pc;
      bbInstCounter := bbInstCounter + 1;
      lpamanager.IncreaseGlobalInst();

      if e.isControl {
        lpamanager.UpdateBBEnd(pc);
        FinishBlock(pc);
        if markerValidAddrRange.end > 0 && (pc < markerValidAddrRange.start || pc > markerValidAddrRange.end) {
          return;
        }
        if e.isDirectCtrl {
          if e.npc < pc {
            lpamanager.UpdateBackwardBranches(pc);
            lpamanager.CountPc(pc);
          }
        }
      } else {
        lpamanager.UpdateValidPc(pc);
      }
    }

    method GetLocalBBV() returns (r: map<Addr, nat>)
      ensures r == localBBV
    {
      r := localBBV;
    }

    /** Empties this listener's local vector; the shared manager is untouched. */
    method ClearLocalBBV()
      modifies this
      ensures State() == old(State()).(localBBV := map[])
    {
      localBBV := map[];
    }
  }
}
