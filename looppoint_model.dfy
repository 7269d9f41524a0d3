/** Reference model of the LoopPoint basic-block-vector engine as values:
    the address-range filters, the one-time classification of a program
    counter, the effect of one committed instruction on the shared manager
    and on the listener (one per simulated core) that saw it, and traces of
    instructions committed by several cores that share one manager.
    The classes in module LooppointAnalysis are proved to follow `Step`. */
module LooppointModel {
  import opened Counts

  /** An inclusive address range `[start, end]`; `end == 0` (the default
      `AddrRange(0, 0)`) means "no restriction" where a range gates a filter. */
  datatype AddrRange = AddrRange(start: Addr, end: Addr)

  /** `pc` lies in `r`, both bounds inclusive, as the code compares them. */
  predicate InRange(r: AddrRange, pc: Addr) {
    r.start <= pc <= r.end
  }

  /** A gating range lets `pc` through: it is unrestricted or holds `pc`. */
  predicate Admits(r: AddrRange, pc: Addr) {
    r.end == 0 || InRange(r, pc)
  }

  /** `pc` lies inside one of the excluded ranges. */
  predicate Excluded(ranges: seq<AddrRange>, pc: Addr) {
    exists i :: 0 <= i < |ranges| && InRange(ranges[i], pc)
  }

  /** What a listener knows about one committed instruction. */
  datatype CommitEvent = CommitEvent(
    pc: Addr,
    npc: Addr,
    isControl: bool,
    isDirectCtrl: bool,
    isMicroop: bool,
    isLastMicroop: bool,
    inUserMode: bool)

  /** A listener's construction-time filters. */
  datatype Filters = Filters(
    bbValid: AddrRange,
    markerValid: AddrRange,
    excluded: seq<AddrRange>)

  /** The category a program counter is given on first encounter:
      ignored for ever, inside a block, ending a block, or ending a block
      and marking a loop (a direct backward branch). */
  datatype Category = Rejected | MidBlock | BlockEnd | LoopMarker

  predicate EndsBlock(c: Category) {
    c == BlockEnd || c == LoopMarker
  }

  /** First-encounter classification, the filters in the order the code
      applies them. */
  function Classify(f: Filters, e: CommitEvent): (c: Category)
    ensures c == Rejected <==>
              (e.isMicroop && !e.isLastMicroop)
              || !e.inUserMode
              || (f.bbValid.end > 0 && (e.pc < f.bbValid.start || e.pc > f.bbValid.end))
              || (exists i :: 0 <= i < |f.excluded| && f.excluded[i].start <= e.pc <= f.excluded[i].end)
    ensures c != Rejected ==> (EndsBlock(c) <==> e.isControl)
    ensures c == LoopMarker <==>
              c != Rejected && e.isControl && e.isDirectCtrl && e.npc < e.pc
              && (f.markerValid.end == 0 || f.markerValid.start <= e.pc <= f.markerValid.end)
  {
    if e.isMicroop && !e.isLastMicroop then Rejected
    else if !e.inUserMode then Rejected
    else if !Admits(f.bbValid, e.pc) then Rejected
    else if Excluded(f.excluded, e.pc) then Rejected
    else if !e.isControl then MidBlock
    else if Admits(f.markerValid, e.pc) && e.isDirectCtrl && e.npc < e.pc then LoopMarker
    else BlockEnd
  }

  /** The manager shared by all listeners. `exitRequests` counts the
      simulator-exit requests raised so far. */
  datatype ManagerState = ManagerState(
    counter: map<Addr, nat>,
    globalBBV: map<Addr, nat>,
    bbInstMap: map<Addr, nat>,
    regionLength: nat,
    globalInstCounter: nat,
    mostRecentPc: Addr,
    backwardBranches: set<Addr>,
    validPc: set<Addr>,
    bbEnd: set<Addr>,
    encounteredPc: set<Addr>,
    exitRequests: nat)

  /** One listener's own state. */
  datatype ListenerState = ListenerState(bbInstCounter: nat, localBBV: map<Addr, nat>)

  /** A freshly constructed manager. */
  function InitialManager(regionLength: nat): (m: ManagerState)
    ensures Inv(m)
  {
    ManagerState(map[], map[], map[], regionLength, 0, 0, {}, {}, {}, {}, 0)
  }

  /** The category the manager has cached for an encountered `pc`. */
  function CachedCategory(m: ManagerState, pc: Addr): Category {
    if pc in m.validPc then MidBlock
    else if pc in m.bbEnd then (if pc in m.backwardBranches then LoopMarker else BlockEnd)
    else Rejected
  }

  /** Tally of a backward branch (`countPc`): insert-or-increment its count,
      remember it as the most recent, and request an exit whenever the global
      instruction count has reached the region length at this call. */
  function CountPc(m: ManagerState, pc: Addr): (m': ManagerState)
    ensures m'.exitRequests == m.exitRequests + (if m.globalInstCounter >= m.regionLength then 1 else 0)
    ensures Count(m'.counter, pc) == Count(m.counter, pc) + 1
    ensures m'.counter == Inc(m.counter, pc)
    ensures m'.mostRecentPc == pc
    ensures m' == m.(counter := m'.counter, mostRecentPc := pc, exitRequests := m'.exitRequests)
  {
    m.(counter := Inc(m.counter, pc),
       mostRecentPc := pc,
       exitRequests := m.exitRequests + if m.globalInstCounter >= m.regionLength then 1 else 0)
  }

  /** The sets a first classification inserts `pc` into. */
  function Record(m: ManagerState, pc: Addr, c: Category): (r: ManagerState)
    // filing only grows the classification sets, by `pc` alone, and touches no count
    ensures m.validPc <= r.validPc && m.bbEnd <= r.bbEnd && m.backwardBranches <= r.backwardBranches
    ensures r.validPc <= m.validPc + {pc} && r.bbEnd <= m.bbEnd + {pc}
    ensures r.backwardBranches <= m.backwardBranches + {pc}
    ensures r.encounteredPc == m.encounteredPc && r.counter == m.counter && r.globalBBV == m.globalBBV
    ensures r.bbInstMap == m.bbInstMap && r.globalInstCounter == m.globalInstCounter
    ensures r.exitRequests == m.exitRequests
  {
    match c
    case Rejected => m
    case MidBlock => m.(validPc := m.validPc + {pc})
    case BlockEnd => m.(bbEnd := m.bbEnd + {pc})
    case LoopMarker => m.(bbEnd := m.bbEnd + {pc}, backwardBranches := m.backwardBranches + {pc})
  }

  /** The cached category reads back what a first classification filed:
      `CachedCategory` inverts `Record` for a new `pc`. */
  lemma CachedCategoryInvertsRecord(m: ManagerState, pc: Addr, c: Category)
    requires Inv(m) && pc !in m.encounteredPc
    ensures CachedCategory(Record(m.(encounteredPc := m.encounteredPc + {pc}), pc, c), pc) == c
  {
  }

  /** Block-end bookkeeping, the block's length (this instruction included)
      being the listener's counter: record the length if none is recorded,
      count the block in both vectors, and restart the listener's counter. */
  function FinishBlock(m: ManagerState, l: ListenerState, pc: Addr): (r: (ManagerState, ListenerState))
    ensures Count(r.0.globalBBV, pc) == Count(m.globalBBV, pc) + 1
    ensures Count(r.1.localBBV, pc) == Count(l.localBBV, pc) + 1
    ensures pc in r.0.bbInstMap && r.1.bbInstCounter == 0
  {
    (m.(bbInstMap := FirstWins(m.bbInstMap, pc, l.bbInstCounter), globalBBV := Inc(m.globalBBV, pc)),
     ListenerState(0, Inc(l.localBBV, pc)))
  }

  /** The counting an occurrence of a `pc` of category `c` performs. */
  function Execute(m: ManagerState, l: ListenerState, pc: Addr, c: Category): (r: (ManagerState, ListenerState))
    // counting never reclassifies, and a rejected pc is not counted
    ensures r.0.encounteredPc == m.encounteredPc && r.0.validPc == m.validPc
    ensures r.0.bbEnd == m.bbEnd && r.0.backwardBranches == m.backwardBranches
    ensures c == Rejected ==> r == (m, l)
  {
    if c == Rejected then (m, l)
    else
      var m1 := m.(globalInstCounter := m.globalInstCounter + 1);
      var l1 := l.(bbInstCounter := l.bbInstCounter + 1);
      if c == MidBlock then (m1, l1)
      else
        var (m2, l2) := FinishBlock(m1, l1, pc);
        if c == LoopMarker then (CountPc(m2, pc), l2) else (m2, l2)
  }

  /** One committed instruction seen by a listener with filters `f`
      (`checkPc`): an encountered `pc` is counted by its cached category
      alone; a new one is marked encountered, classified once, and counted. */
  function Step(f: Filters, m: ManagerState, l: ListenerState, e: CommitEvent): (r: (ManagerState, ListenerState))
    ensures r.0.encounteredPc == m.encounteredPc + {e.pc}
  {
    if e.pc in m.encounteredPc then Execute(m, l, e.pc, CachedCategory(m, e.pc))
    else
      var c := Classify(f, e);
      Execute(Record(m.(encounteredPc := m.encounteredPc + {e.pc}), e.pc, c), l, e.pc, c)
  }

  /** The manager's invariant: the classification sets nest and do not
      overlap, the tallies are keyed by block ends, and counts and recorded
      block lengths are positive. */
  ghost predicate Inv(m: ManagerState) {
    && m.validPc <= m.encounteredPc
    && m.bbEnd <= m.encounteredPc
    && m.validPc !! m.bbEnd
    && m.backwardBranches <= m.bbEnd
    && m.globalBBV.Keys <= m.bbEnd
    && m.bbInstMap.Keys <= m.bbEnd
    && m.counter.Keys <= m.backwardBranches
    && Positive(m.counter) && Positive(m.globalBBV) && Positive(m.bbInstMap)
  }

  /** A listener's local vector only holds block ends known to its manager. */
  ghost predicate ListenerInv(m: ManagerState, l: ListenerState) {
    l.localBBV.Keys <= m.bbEnd && Positive(l.localBBV)
  }

  /** Sets only grow: nothing is ever removed from a classification set. */
  ghost predicate SetsGrow(m: ManagerState, m': ManagerState) {
    && m.encounteredPc <= m'.encounteredPc
    && m.validPc <= m'.validPc
    && m.bbEnd <= m'.bbEnd
    && m.backwardBranches <= m'.backwardBranches
  }

  /** A first-seen `pc` enters `encounteredPc` whatever the filters decide;
      the sets only grow; an occurrence of an encountered `pc` leaves the sets
      as they are; a new `pc` is cached under its classification.
      `StepKeepsCategory` covers every other encountered `pc`. */
  lemma StepClassifiesOnce(f: Filters, m: ManagerState, l: ListenerState, e: CommitEvent)
    ensures e.pc in Step(f, m, l, e).0.encounteredPc
    ensures SetsGrow(m, Step(f, m, l, e).0)
    ensures Inv(m) && e.pc in m.encounteredPc ==>
              Step(f, m, l, e).0.validPc == m.validPc
              && Step(f, m, l, e).0.bbEnd == m.bbEnd
              && Step(f, m, l, e).0.backwardBranches == m.backwardBranches
              && Step(f, m, l, e).0.encounteredPc == m.encounteredPc
    ensures Inv(m) && e.pc !in m.encounteredPc ==> CachedCategory(Step(f, m, l, e).0, e.pc) == Classify(f, e)
  {
  }

  /** Classification is fixed once made: whatever is committed, every
      `pc` already encountered keeps its cached category. */
  lemma StepKeepsCategory(f: Filters, m: ManagerState, l: ListenerState, e: CommitEvent, p: Addr)
    requires Inv(m) && p in m.encounteredPc
    ensures CachedCategory(Step(f, m, l, e).0, p) == CachedCategory(m, p)
  {
  }

  /** Later occurrences are dispatched on the cached category alone: the
      filters (whichever listener applies them) and the event's other fields
      play no part. */
  lemma CachedDispatch(f1: Filters, f2: Filters, m: ManagerState, l: ListenerState, e1: CommitEvent, e2: CommitEvent)
    requires e1.pc == e2.pc && e1.pc in m.encounteredPc
    ensures Step(f1, m, l, e1) == Step(f2, m, l, e2)
  {
  }

  /** A `pc` rejected on first encounter changes nothing but `encounteredPc`
      then, and nothing at all on any later occurrence. */
  lemma RejectedHasNoEffect(f: Filters, m: ManagerState, l: ListenerState, e: CommitEvent)
    ensures e.pc !in m.encounteredPc && Classify(f, e) == Rejected ==>
              Step(f, m, l, e) == (m.(encounteredPc := m.encounteredPc + {e.pc}), l)
    ensures e.pc in m.encounteredPc && CachedCategory(m, e.pc) == Rejected ==>
              Step(f, m, l, e) == (m, l)
  {
  }

  /** Every counted occurrence (not rejected) adds exactly one to the global
      instruction count; a mid-block one also adds one to the listener's
      block counter, a block end resets it. */
  lemma StepCountsInstructions(f: Filters, m: ManagerState, l: ListenerState, e: CommitEvent)
    ensures var (m', l') := Step(f, m, l, e);
            var c := if e.pc in m.encounteredPc then CachedCategory(m, e.pc) else Classify(f, e);
            && m'.globalInstCounter == m.globalInstCounter + (if c == Rejected then 0 else 1)
            && (c == MidBlock ==> l'.bbInstCounter == l.bbInstCounter + 1)
            && (EndsBlock(c) ==> l'.bbInstCounter == 0)
            && (c == Rejected ==> l' == l)
  {
  }

  /** At a block end both vectors count the block once more, and its length
      (the instructions since the listener's previous block end, this one
      included) is recorded only if none is recorded yet. Nothing else is
      touched at a plain block end. */
  lemma StepAtBlockEnd(f: Filters, m: ManagerState, l: ListenerState, e: CommitEvent)
    requires Inv(m)
    requires EndsBlock(if e.pc in m.encounteredPc then CachedCategory(m, e.pc) else Classify(f, e))
    ensures var (m', l') := Step(f, m, l, e);
            && Count(m'.globalBBV, e.pc) == Count(m.globalBBV, e.pc) + 1
            && Count(l'.localBBV, e.pc) == Count(l.localBBV, e.pc) + 1
            && (forall p :: p != e.pc ==> Count(m'.globalBBV, p) == Count(m.globalBBV, p))
            && (forall p :: p != e.pc ==> Count(l'.localBBV, p) == Count(l.localBBV, p))
            && m'.bbInstMap == FirstWins(m.bbInstMap, e.pc, l.bbInstCounter + 1)
            && e.pc in m'.bbEnd
  {
    if e.pc in m.encounteredPc {
      ExecuteAtBlockEnd(m, l, e.pc, CachedCategory(m, e.pc));
    } else {
      var c := Classify(f, e);
      ExecuteAtBlockEnd(Record(m.(encounteredPc := m.encounteredPc + {e.pc}), e.pc, c), l, e.pc, c);
    }
  }

  /** Counting a block end moves exactly that block's entries. */
  lemma ExecuteAtBlockEnd(m: ManagerState, l: ListenerState, pc: Addr, c: Category)
    requires EndsBlock(c)
    ensures var (m', l') := Execute(m, l, pc, c);
            && Count(m'.globalBBV, pc) == Count(m.globalBBV, pc) + 1
            && Count(l'.localBBV, pc) == Count(l.localBBV, pc) + 1
            && (forall p :: p != pc ==> Count(m'.globalBBV, p) == Count(m.globalBBV, p))
            && (forall p :: p != pc ==> Count(l'.localBBV, p) == Count(l.localBBV, p))
            && m'.bbInstMap == FirstWins(m.bbInstMap, pc, l.bbInstCounter + 1)
  {
  }

  /** A block end becomes a loop marker, and is tallied, exactly when it is a
      direct branch with `npc < pc` that the marker range admits; a block end
      outside the marker range is still a block end. */
  lemma StepLoopMarker(f: Filters, m: ManagerState, l: ListenerState, e: CommitEvent)
    requires Inv(m) && e.pc !in m.encounteredPc
    ensures var m' := Step(f, m, l, e).0;
            && (e.pc in m'.backwardBranches <==>
                  Classify(f, e) != Rejected && e.isControl && e.isDirectCtrl && e.npc < e.pc
                  && Admits(f.markerValid, e.pc))
            && (e.pc in m'.bbEnd <==> Classify(f, e) != Rejected && e.isControl)
            && Count(m'.counter, e.pc) == (if e.pc in m'.backwardBranches then 1 else 0)
  {
  }

  /** The exit request is raised at an occurrence exactly when it is a loop
      marker and the global count, this instruction included, has reached the
      region length; on every such occurrence, not only the first. */
  lemma StepExitRequest(f: Filters, m: ManagerState, l: ListenerState, e: CommitEvent)
    requires Inv(m)
    ensures var m' := Step(f, m, l, e).0;
            var c := if e.pc in m.encounteredPc then CachedCategory(m, e.pc) else Classify(f, e);
            m'.exitRequests == m.exitRequests + (if c == LoopMarker && m'.globalInstCounter >= m.regionLength then 1 else 0)
  {
  }

  /** Classifying a new `pc` keeps the invariants and files it where its
      category says. */
  lemma RecordPreservesInv(m: ManagerState, pc: Addr, c: Category, l: ListenerState)
    requires Inv(m) && ListenerInv(m, l) && pc !in m.encounteredPc
    ensures var mr := Record(m.(encounteredPc := m.encounteredPc + {pc}), pc, c);
            && Inv(mr) && ListenerInv(mr, l)
            && (EndsBlock(c) ==> pc in mr.bbEnd)
            && (c == LoopMarker ==> pc in mr.backwardBranches)
  {
  }

  /** Counting an occurrence keeps the invariants, given that the `pc` is
      filed under its category. */
  lemma ExecutePreservesInv(m: ManagerState, l: ListenerState, pc: Addr, c: Category, other: ListenerState)
    requires Inv(m) && ListenerInv(m, l) && ListenerInv(m, other)
    requires EndsBlock(c) ==> pc in m.bbEnd
    requires c == LoopMarker ==> pc in m.backwardBranches
    ensures Inv(Execute(m, l, pc, c).0)
    ensures ListenerInv(Execute(m, l, pc, c).0, Execute(m, l, pc, c).1)
    ensures ListenerInv(Execute(m, l, pc, c).0, other)
  {
    if EndsBlock(c) {
      IncPositive(m.globalBBV, pc);
      IncPositive(l.localBBV, pc);
      if c == LoopMarker {
        IncPositive(m.counter, pc);
      }
    }
  }

  /** Step keeps the manager's invariant and every listener's (the one that
      stepped and all others sharing the manager). */
  lemma StepPreservesInv(f: Filters, m: ManagerState, l: ListenerState, e: CommitEvent, other: ListenerState)
    requires Inv(m) && ListenerInv(m, l) && ListenerInv(m, other)
    ensures Inv(Step(f, m, l, e).0)
    ensures ListenerInv(Step(f, m, l, e).0, Step(f, m, l, e).1)
    ensures ListenerInv(Step(f, m, l, e).0, other)
  {
    if e.pc in m.encounteredPc {
      ExecutePreservesInv(m, l, e.pc, CachedCategory(m, e.pc), other);
    } else {
      var c := Classify(f, e);
      var mr := Record(m.(encounteredPc := m.encounteredPc + {e.pc}), e.pc, c);
      RecordPreservesInv(m, e.pc, c, l);
      RecordPreservesInv(m, e.pc, c, other);
      ExecutePreservesInv(mr, l, e.pc, c, other);
    }
  }

  // ---------------------------------------------------------------------
  // Several cores sharing one manager

  /** An instruction committed on core `core`. */
  datatype CoreEvent = CoreEvent(core: nat, event: CommitEvent)

  /** Listeners, one per core, each with its own filters. */
  datatype Core = Core(filters: Filters, state: ListenerState)

  ghost predicate WellAddressed(cores: seq<Core>, trace: seq<CoreEvent>) {
    forall i :: 0 <= i < |trace| ==> trace[i].core < |cores|
  }

  /** One instruction committed on the core it names. */
  function StepCore(m: ManagerState, cores: seq<Core>, ce: CoreEvent): (r: (ManagerState, seq<Core>))
    requires ce.core < |cores|
    ensures |r.1| == |cores|
  {
    var k := ce.core;
    var (m1, l1) := Step(cores[k].filters, m, cores[k].state, ce.event);
    (m1, cores[k := cores[k].(state := l1)])
  }

  /** The state after the cores see the events of `trace`, in order. */
  function Run(m: ManagerState, cores: seq<Core>, trace: seq<CoreEvent>): (r: (ManagerState, seq<Core>))
    requires WellAddressed(cores, trace)
    ensures |r.1| == |cores|
    decreases |trace|
  {
    if trace == [] then (m, cores)
    else
      var (m1, cores1) := StepCore(m, cores, trace[0]);
      assert WellAddressed(cores1, trace[1..]) by {
        forall i | 0 <= i < |trace[1..]| ensures trace[1..][i].core < |cores1| {
          assert trace[1..][i] == trace[i + 1];
        }
      }
      Run(m1, cores1, trace[1..])
  }

  ghost predicate AllInv(m: ManagerState, cores: seq<Core>) {
    Inv(m) && forall k :: 0 <= k < |cores| ==> ListenerInv(m, cores[k].state)
  }

  /** A program counter first seen on a path that rejected it. */
  ghost predicate IsRejected(m: ManagerState, pc: Addr) {
    pc in m.encounteredPc && pc !in m.validPc && pc !in m.bbEnd
  }

  /** Loop markers: the backward-branch tally of a marker equals its global
      block count (both rise together at every occurrence). */
  ghost predicate TallyAgrees(m: ManagerState) {
    forall pc :: pc in m.backwardBranches ==> Count(m.counter, pc) == Count(m.globalBBV, pc)
  }

  /** A rejected program counter stays rejected whatever is committed. */
  lemma StepKeepsRejected(f: Filters, m: ManagerState, l: ListenerState, e: CommitEvent, pc: Addr)
    requires Inv(m) && IsRejected(m, pc)
    ensures IsRejected(Step(f, m, l, e).0, pc)
  {
    StepClassifiesOnce(f, m, l, e);
  }

  /** Filing a new `pc` keeps the tally agreement: a new `pc` has neither a
      tally nor a block count yet. */
  lemma RecordKeepsTally(m: ManagerState, pc: Addr, c: Category)
    requires Inv(m) && TallyAgrees(m) && pc !in m.encounteredPc
    ensures TallyAgrees(Record(m.(encounteredPc := m.encounteredPc + {pc}), pc, c))
  {
    var mr := Record(m.(encounteredPc := m.encounteredPc + {pc}), pc, c);
    forall p | p in mr.backwardBranches
      ensures Count(mr.counter, p) == Count(mr.globalBBV, p)
    {
      if p == pc {
        assert pc !in m.counter.Keys && pc !in m.globalBBV.Keys;
      } else {
        assert p in m.backwardBranches;
      }
    }
  }

  /** Counting an occurrence keeps the tally agreement, given that a loop
      marker is filed as a backward branch and a plain block end is not. */
  lemma ExecuteKeepsTally(m: ManagerState, l: ListenerState, pc: Addr, c: Category)
    requires TallyAgrees(m)
    requires c == LoopMarker ==> pc in m.backwardBranches
    requires c == BlockEnd ==> pc !in m.backwardBranches
    ensures TallyAgrees(Execute(m, l, pc, c).0)
  {
    var m' := Execute(m, l, pc, c).0;
    assert m'.backwardBranches == m.backwardBranches;
    forall p | p in m'.backwardBranches
      ensures Count(m'.counter, p) == Count(m'.globalBBV, p)
    {
      if p != pc || c == Rejected || c == MidBlock {
        assert Count(m'.counter, p) == Count(m.counter, p);
        assert Count(m'.globalBBV, p) == Count(m.globalBBV, p);
      }
    }
  }

  /** A step keeps the tally of every loop marker equal to its block count. */
  lemma StepKeepsTally(f: Filters, m: ManagerState, l: ListenerState, e: CommitEvent)
    requires Inv(m) && TallyAgrees(m)
    ensures TallyAgrees(Step(f, m, l, e).0)
  {
    if e.pc in m.encounteredPc {
      ExecuteKeepsTally(m, l, e.pc, CachedCategory(m, e.pc));
    } else {
      var c := Classify(f, e);
      var mr := Record(m.(encounteredPc := m.encounteredPc + {e.pc}), e.pc, c);
      RecordKeepsTally(m, e.pc, c);
      assert e.pc !in m.backwardBranches;
      ExecuteKeepsTally(mr, l, e.pc, c);
    }
  }

  /** What one step on any core keeps: the invariants, growing sets,
      rejected program counters, and the tally agreement. */
  lemma StepCoreKeeps(m: ManagerState, cores: seq<Core>, ce: CoreEvent)
    requires ce.core < |cores| && AllInv(m, cores)
    ensures AllInv(StepCore(m, cores, ce).0, StepCore(m, cores, ce).1)
    ensures SetsGrow(m, StepCore(m, cores, ce).0)
    ensures forall pc :: IsRejected(m, pc) ==> IsRejected(StepCore(m, cores, ce).0, pc)
    ensures TallyAgrees(m) ==> TallyAgrees(StepCore(m, cores, ce).0)
  {
    var k := ce.core;
    var f, l, e := cores[k].filters, cores[k].state, ce.event;
    var r := Step(f, m, l, e);
    var m1, cores1 := r.0, cores[k := cores[k].(state := r.1)];
    assert StepCore(m, cores, ce) == (m1, cores1);
    StepPreservesInv(f, m, l, e, l);
    forall j | 0 <= j < |cores| && j != k
      ensures ListenerInv(m1, cores1[j].state)
    {
      StepPreservesInv(f, m, l, e, cores[j].state);
    }
    StepClassifiesOnce(f, m, l, e);
    forall pc | IsRejected(m, pc) ensures IsRejected(m1, pc) {
      StepKeepsRejected(f, m, l, e, pc);
    }
    if TallyAgrees(m) {
      StepKeepsTally(f, m, l, e);
    }
  }

  /** The invariants hold all along any multi-core trace, and the
      classification sets only grow. */
  lemma {:induction false} RunPreservesInv(m: ManagerState, cores: seq<Core>, trace: seq<CoreEvent>)
    requires WellAddressed(cores, trace) && AllInv(m, cores)
    ensures AllInv(Run(m, cores, trace).0, Run(m, cores, trace).1)
    ensures SetsGrow(m, Run(m, cores, trace).0)
    decreases |trace|
  {
    if trace != [] {
      var (m1, cores1) := StepCore(m, cores, trace[0]);
      StepCoreKeeps(m, cores, trace[0]);
      assert WellAddressed(cores1, trace[1..]) by {
        forall i | 0 <= i < |trace[1..]| ensures trace[1..][i].core < |cores1| {
          assert trace[1..][i] == trace[i + 1];
        }
      }
      RunPreservesInv(m1, cores1, trace[1..]);
    }
  }

  /** A step on any core keeps the category of every encountered `pc`. */
  lemma StepCoreKeepsCategory(m: ManagerState, cores: seq<Core>, ce: CoreEvent, p: Addr)
    requires ce.core < |cores| && Inv(m) && p in m.encounteredPc
    ensures p in StepCore(m, cores, ce).0.encounteredPc
    ensures CachedCategory(StepCore(m, cores, ce).0, p) == CachedCategory(m, p)
  {
    var k := ce.core;
    StepClassifiesOnce(cores[k].filters, m, cores[k].state, ce.event);
    StepKeepsCategory(cores[k].filters, m, cores[k].state, ce.event, p);
  }

  /** Classification is fixed for the rest of the run: along any multi-core
      trace, every `pc` already encountered keeps its cached category, so a
      plain block end never turns into a loop marker and a loop marker never
      stops being one. */
  lemma {:induction false} RunKeepsCategory(m: ManagerState, cores: seq<Core>, trace: seq<CoreEvent>, p: Addr)
    requires WellAddressed(cores, trace) && AllInv(m, cores) && p in m.encounteredPc
    ensures p in Run(m, cores, trace).0.encounteredPc
    ensures CachedCategory(Run(m, cores, trace).0, p) == CachedCategory(m, p)
    decreases |trace|
  {
    if trace != [] {
      var (m1, cores1) := StepCore(m, cores, trace[0]);
      StepCoreKeeps(m, cores, trace[0]);
      StepCoreKeepsCategory(m, cores, trace[0], p);
      assert WellAddressed(cores1, trace[1..]) by {
        forall i | 0 <= i < |trace[1..]| ensures trace[1..][i].core < |cores1| {
          assert trace[1..][i] == trace[i + 1];
        }
      }
      RunKeepsCategory(m1, cores1, trace[1..], p);
    }
  }

  /** Rejection is permanent: a rejected `pc` stays rejected along any trace,
      on every core, and never appears in a vector, a length map or the
      backward-branch tally. */
  lemma {:induction false} RejectionIsPermanent(m: ManagerState, cores: seq<Core>, trace: seq<CoreEvent>, pc: Addr)
    requires WellAddressed(cores, trace) && AllInv(m, cores) && IsRejected(m, pc)
    ensures var (m', cores') := Run(m, cores, trace);
            && IsRejected(m', pc)
            && pc !in m'.globalBBV && pc !in m'.bbInstMap && pc !in m'.counter
            && pc !in m'.backwardBranches
            && forall k :: 0 <= k < |cores'| ==> pc !in cores'[k].state.localBBV
    decreases |trace|
  {
    if trace != [] {
      var (m1, cores1) := StepCore(m, cores, trace[0]);
      StepCoreKeeps(m, cores, trace[0]);
      assert WellAddressed(cores1, trace[1..]) by {
        forall i | 0 <= i < |trace[1..]| ensures trace[1..][i].core < |cores1| {
          assert trace[1..][i] == trace[i + 1];
        }
      }
      RejectionIsPermanent(m1, cores1, trace[1..], pc);
    }
  }

  /** Without clears, a loop marker's backward-branch tally equals its global
      block count along any trace. */
  lemma {:induction false} RunKeepsTallyAgreement(m: ManagerState, cores: seq<Core>, trace: seq<CoreEvent>)
    requires WellAddressed(cores, trace) && AllInv(m, cores) && TallyAgrees(m)
    ensures TallyAgrees(Run(m, cores, trace).0)
    decreases |trace|
  {
    if trace != [] {
      var (m1, cores1) := StepCore(m, cores, trace[0]);
      StepCoreKeeps(m, cores, trace[0]);
      assert WellAddressed(cores1, trace[1..]) by {
        forall i | 0 <= i < |trace[1..]| ensures trace[1..][i].core < |cores1| {
          assert trace[1..][i] == trace[i + 1];
        }
      }
      RunKeepsTallyAgreement(m1, cores1, trace[1..]);
    }
  }

  // ---------------------------------------------------------------------
  // The global vector is the merge of the local ones

  /** The count of block `pc` summed over all cores' local vectors. */
  function LocalSum(cores: seq<Core>, pc: Addr): nat
    decreases |cores|
  {
    if cores == [] then 0 else LocalSum(cores[..|cores| - 1], pc) + Count(cores[|cores| - 1].state.localBBV, pc)
  }

  /** Replacing one core's state changes the sum by the change at that core. */
  lemma {:induction false} LocalSumUpdate(cores: seq<Core>, k: nat, c: Core, pc: Addr)
    requires k < |cores|
    ensures LocalSum(cores[k := c], pc) + Count(cores[k].state.localBBV, pc)
            == LocalSum(cores, pc) + Count(c.state.localBBV, pc)
    decreases |cores|
  {
    var n := |cores|;
    var cores' := cores[k := c];
    assert cores'[..n - 1] == if k == n - 1 then cores[..n - 1] else cores[..n - 1][k := c];
    if k < n - 1 {
      LocalSumUpdate(cores[..n - 1], k, c, pc);
    }
  }

  /** A block count rises in the global vector exactly when it rises in the
      vector of the listener that stepped. */
  lemma ExecuteMovesBoth(m: ManagerState, l: ListenerState, pc: Addr, c: Category, p: Addr)
    ensures Count(Execute(m, l, pc, c).0.globalBBV, p) + Count(l.localBBV, p)
            == Count(m.globalBBV, p) + Count(Execute(m, l, pc, c).1.localBBV, p)
  {
  }

  lemma StepMovesBoth(f: Filters, m: ManagerState, l: ListenerState, e: CommitEvent, p: Addr)
    ensures Count(Step(f, m, l, e).0.globalBBV, p) + Count(l.localBBV, p)
            == Count(m.globalBBV, p) + Count(Step(f, m, l, e).1.localBBV, p)
  {
    if e.pc in m.encounteredPc {
      ExecuteMovesBoth(m, l, e.pc, CachedCategory(m, e.pc), p);
    } else {
      var c := Classify(f, e);
      ExecuteMovesBoth(Record(m.(encounteredPc := m.encounteredPc + {e.pc}), e.pc, c), l, e.pc, c, p);
    }
  }

  /** Merged: every block's global count is the sum of the cores' local
      counts for it. */
  ghost predicate Merged(m: ManagerState, cores: seq<Core>) {
    forall pc :: Count(m.globalBBV, pc) == LocalSum(cores, pc)
  }

  /** Without clears, the global vector stays the merge of the local vectors
      along any trace, whichever core commits each instruction. */
  lemma {:induction false} RunKeepsMerged(m: ManagerState, cores: seq<Core>, trace: seq<CoreEvent>)
    requires WellAddressed(cores, trace) && Merged(m, cores)
    ensures Merged(Run(m, cores, trace).0, Run(m, cores, trace).1)
    decreases |trace|
  {
    if trace != [] {
      var k := trace[0].core;
      var (m1, cores1) := StepCore(m, cores, trace[0]);
      assert cores1[k].state == Step(cores[k].filters, m, cores[k].state, trace[0].event).1;
      forall pc ensures Count(m1.globalBBV, pc) == LocalSum(cores1, pc) {
        StepMovesBoth(cores[k].filters, m, cores[k].state, trace[0].event, pc);
        LocalSumUpdate(cores, k, cores1[k], pc);
      }
      assert WellAddressed(cores1, trace[1..]) by {
        forall i | 0 <= i < |trace[1..]| ensures trace[1..][i].core < |cores1| {
          assert trace[1..][i] == trace[i + 1];
        }
      }
      RunKeepsMerged(m1, cores1, trace[1..]);
    }
  }
}
