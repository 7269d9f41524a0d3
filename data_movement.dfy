/** The data-movement tracker: counts memory reads and writes per
    (virtual, physical) address pair and per (virtual address, pc) pair,
    keyed by text, and profiles basic blocks over an interval of
    instructions. */
module DataMovement {
  import opened Counts
  import opened Numerals

  /** A memory request as the tracker reads it: the virtual and physical
      page numbers and the pc of the instruction that issued it. */
  datatype MemRequest = MemRequest(vAddr: Addr, pAddr: Addr, pc: Addr)

  /** `addrToHex`: the address in lower-case base 16, no prefix. */
  function AddrToHex(a: Addr): (s: string)
    ensures FromBase(s, 16) == a && '&' !in s
  {
    RoundTrip(a, 16);
    Hex(a)
  }

  /** `createPair`: the two addresses in hex joined by '&'. */
  function CreatePair(a1: Addr, a2: Addr): string {
    AddrToHex(a1) + "&" + AddrToHex(a2)
  }

  /** The position of the first `c` in `s`, or `|s|` when there is none. */
  function FirstIndex(s: string, c: char): (i: nat)
    ensures i <= |s|
    ensures forall j :: 0 <= j < i ==> s[j] != c
    ensures i < |s| ==> s[i] == c
  {
    if s == [] then 0 else if s[0] == c then 0 else 1 + FirstIndex(s[1..], c)
  }

  /** A separator absent from the prefix is found right after it. */
  lemma {:induction false} SeparatorPosition(x: string, y: string, c: char)
    requires c !in x
    ensures FirstIndex(x + [c] + y, c) == |x|
    decreases |x|
  {
    if x != [] {
      SeparatorPosition(x[1..], y, c);
      assert (x + [c] + y)[1..] == x[1..] + [c] + y;
    }
  }

  /** A key splits back into its two addresses: the first '&' stands right
      after the first hex number, with the second one after it. */
  lemma CreatePairParses(a1: Addr, a2: Addr)
    ensures var k, x := CreatePair(a1, a2), AddrToHex(a1);
            && FirstIndex(k, '&') == |x|
            && k[..|x|] == x
            && k[|x| + 1..] == AddrToHex(a2)
  {
    SeparatorPosition(AddrToHex(a1), AddrToHex(a2), '&');
  }

  /** Distinct address pairs never share a key. */
  lemma CreatePairInjective(a1: Addr, a2: Addr, b1: Addr, b2: Addr)
    requires CreatePair(a1, a2) == CreatePair(b1, b2)
    ensures a1 == b1 && a2 == b2
  {
    CreatePairParses(a1, a2);
    CreatePairParses(b1, b2);
  }

  /** The tracker's state, `exitRequests` counting the simulator-exit
      requests it has raised. */
  datatype TrackerState = TrackerState(
    intervalLength: nat,
    intervalCount: nat,
    basicBlockInstCount: nat,
    readvAddrpAddrCount: map<string, nat>,
    writevAddrpAddrCount: map<string, nat>,
    readvAddrPcCount: map<string, nat>,
    writevAddrPcCount: map<string, nat>,
    vAddrMoveCount: map<Addr, nat>,
    basicBlockCount: map<Addr, nat>,
    basicBlockInstProfile: map<Addr, nat>,
    exitRequests: nat)

  /** A read request (`getReadRequest`): the (virtual, physical) key and the
      (virtual, pc) key each count once more in the read maps; the write
      maps, the block profile and the counters are untouched. */
  function ReadRequest(t: TrackerState, req: MemRequest): (t': TrackerState)
    ensures Count(t'.readvAddrpAddrCount, CreatePair(req.vAddr, req.pAddr)) == Count(t.readvAddrpAddrCount, CreatePair(req.vAddr, req.pAddr)) + 1
    ensures Count(t'.readvAddrPcCount, CreatePair(req.vAddr, req.pc)) == Count(t.readvAddrPcCount, CreatePair(req.vAddr, req.pc)) + 1
    ensures forall k :: k != CreatePair(req.vAddr, req.pAddr) ==> Count(t'.readvAddrpAddrCount, k) == Count(t.readvAddrpAddrCount, k)
    ensures forall k :: k != CreatePair(req.vAddr, req.pc) ==> Count(t'.readvAddrPcCount, k) == Count(t.readvAddrPcCount, k)
    ensures t' == t.(readvAddrpAddrCount := t'.readvAddrpAddrCount, readvAddrPcCount := t'.readvAddrPcCount)
  {
    t.(readvAddrpAddrCount := Inc(t.readvAddrpAddrCount, CreatePair(req.vAddr, req.pAddr)),
       readvAddrPcCount := Inc(t.readvAddrPcCount, CreatePair(req.vAddr, req.pc)))
  }

  /** A write request (`getWriteRequest`): the same on the two write maps,
      leaving the read maps untouched. */
  function WriteRequest(t: TrackerState, req: MemRequest): (t': TrackerState)
    ensures Count(t'.writevAddrpAddrCount, CreatePair(req.vAddr, req.pAddr)) == Count(t.writevAddrpAddrCount, CreatePair(req.vAddr, req.pAddr)) + 1
    ensures Count(t'.writevAddrPcCount, CreatePair(req.vAddr, req.pc)) == Count(t.writevAddrPcCount, CreatePair(req.vAddr, req.pc)) + 1
    ensures forall k :: k != CreatePair(req.vAddr, req.pAddr) ==> Count(t'.writevAddrpAddrCount, k) == Count(t.writevAddrpAddrCount, k)
    ensures forall k :: k != CreatePair(req.vAddr, req.pc) ==> Count(t'.writevAddrPcCount, k) == Count(t.writevAddrPcCount, k)
    ensures t' == t.(writevAddrpAddrCount := t'.writevAddrpAddrCount, writevAddrPcCount := t'.writevAddrPcCount)
  {
    t.(writevAddrpAddrCount := Inc(t.writevAddrpAddrCount, CreatePair(req.vAddr, req.pAddr)),
       writevAddrPcCount := Inc(t.writevAddrPcCount, CreatePair(req.vAddr, req.pc)))
  }

  /** Every count held in the four request maps is at least one. */
  ghost predicate RequestsPositive(t: TrackerState) {
    Positive(t.readvAddrpAddrCount) && Positive(t.writevAddrpAddrCount)
    && Positive(t.readvAddrPcCount) && Positive(t.writevAddrPcCount)
  }

  /** Requests keep every stored request count positive. */
  lemma RequestsKeepPositive(t: TrackerState, req: MemRequest)
    requires RequestsPositive(t)
    ensures RequestsPositive(ReadRequest(t, req)) && RequestsPositive(WriteRequest(t, req))
  {
    IncPositive(t.readvAddrpAddrCount, CreatePair(req.vAddr, req.pAddr));
    IncPositive(t.readvAddrPcCount, CreatePair(req.vAddr, req.pc));
    IncPositive(t.writevAddrpAddrCount, CreatePair(req.vAddr, req.pAddr));
    IncPositive(t.writevAddrPcCount, CreatePair(req.vAddr, req.pc));
  }

  /** One committed instruction (`getPc`): both counters rise; a control
      instruction ends a block, which is counted, its length recorded if
      none is, and the exit requested once the interval is long enough. */
  function PcStep(t: TrackerState, pc: Addr, isControl: bool): (t': TrackerState)
    ensures t'.intervalCount == t.intervalCount + 1
    ensures t'.basicBlockInstCount == if isControl then 0 else t.basicBlockInstCount + 1
    ensures t'.exitRequests == t.exitRequests + (if isControl && t'.intervalCount >= t.intervalLength then 1 else 0)
    ensures isControl ==> Count(t'.basicBlockCount, pc) == Count(t.basicBlockCount, pc) + 1
    ensures isControl ==> t'.basicBlockInstProfile == FirstWins(t.basicBlockInstProfile, pc, t.basicBlockInstCount + 1)
    ensures !isControl ==> t'.basicBlockCount == t.basicBlockCount && t'.basicBlockInstProfile == t.basicBlockInstProfile
    ensures isControl ==> t'.basicBlockCount == Inc(t.basicBlockCount, pc)
    // nothing but the two counters, the two block maps and the exit requests changes
    ensures t' == t.(intervalCount := t'.intervalCount, basicBlockInstCount := t'.basicBlockInstCount,
                     basicBlockCount := t'.basicBlockCount, basicBlockInstProfile := t'.basicBlockInstProfile,
                     exitRequests := t'.exitRequests)
  {
    var t1 := t.(basicBlockInstCount := t.basicBlockInstCount + 1, intervalCount := t.intervalCount + 1);
    if !isControl then t1
    else
      t1.(basicBlockCount := Inc(t1.basicBlockCount, pc),
          basicBlockInstProfile := FirstWins(t1.basicBlockInstProfile, pc, t1.basicBlockInstCount),
          basicBlockInstCount := 0,
          exitRequests := t1.exitRequests + if t1.intervalCount >= t1.intervalLength then 1 else 0)
  }

  /** The tracker after the instructions of `trace` (pc and control flag). */
  function RunPcs(t: TrackerState, trace: seq<(Addr, bool)>): TrackerState
    decreases |trace|
  {
    if trace == [] then t else RunPcs(PcStep(t, trace[0].0, trace[0].1), trace[1..])
  }

  /** One instruction adds at most one block count. */
  lemma PcStepBlockTotal(t: TrackerState, pc: Addr, isControl: bool)
    ensures Total(PcStep(t, pc, isControl).basicBlockCount) <= Total(t.basicBlockCount) + 1
  {
    if isControl {
      IncTotal(t.basicBlockCount, pc);
    }
  }

  /** Blocks are counted no more often than instructions: along any trace
      without clears the sum of block counts grows by at most the growth of
      the interval count, so from the freshly constructed tracker it never
      exceeds the interval count. */
  lemma {:induction false} BlockCountsBoundedByInterval(t: TrackerState, trace: seq<(Addr, bool)>)
    ensures RunPcs(t, trace).intervalCount == t.intervalCount + |trace|
    ensures Total(RunPcs(t, trace).basicBlockCount) <= Total(t.basicBlockCount) + |trace|
    decreases |trace|
  {
    if trace != [] {
      PcStepBlockTotal(t, trace[0].0, trace[0].1);
      BlockCountsBoundedByInterval(PcStep(t, trace[0].0, trace[0].1), trace[1..]);
    }
  }

  /** The exit is never requested by a non-control instruction. */
  lemma NonControlNeverExits(t: TrackerState, pc: Addr)
    ensures PcStep(t, pc, false).exitRequests == t.exitRequests
  {
  }

  /** The tracker object. */
  class DataMovementTracker {
    const intervalLength: nat
    var intervalCount: nat
    var basicBlockInstCount: nat
    const ifStartListening: bool
    var readvAddrpAddrCount: map<string, nat>
    var writevAddrpAddrCount: map<string, nat>
    var readvAddrPcCount: map<string, nat>
    var writevAddrPcCount: map<string, nat>
    var vAddrMoveCount: map<Addr, nat>
    var basicBlockCount: map<Addr, nat>
    var basicBlockInstProfile: map<Addr, nat>
    /** Number of simulator-exit requests raised so far. */
    ghost var exitRequests: nat

    ghost function State(): TrackerState
      reads this
    {
      TrackerState(intervalLength, intervalCount, basicBlockInstCount,
                   readvAddrpAddrCount, writevAddrpAddrCount, readvAddrPcCount, writevAddrPcCount,
                   vAddrMoveCount, basicBlockCount, basicBlockInstProfile, exitRequests)
    }

    constructor (interval: nat, startListening: bool)
      ensures State() == TrackerState(interval, 0, 0, map[], map[], map[], map[], map[], map[], map[], 0)
      ensures ifStartListening == startListening
    {
      intervalLength := interval;
      intervalCount := 0;
      basicBlockInstCount := 0;
      ifStartListening := startListening;
      readvAddrpAddrCount, writevAddrpAddrCount := map[], map[];
      readvAddrPcCount, writevAddrPcCount := map[], map[];
      vAddrMoveCount, basicBlockCount, basicBlockInstProfile := map[], map[], map[];
      exitRequests := 0;
    }

    /** A read request, as ReadRequest says. */
    method GetReadRequest(req: MemRequest)
      modifies this
      ensures State() == ReadRequest(old(State()), req)
    {
      var key := CreatePair(req.vAddr, req.pAddr);
      var byPair := readvAddrpAddrCount;
      if key !in byPair {
        byPair := byPair[key := 1];
      } else {
        byPair := byPair[key := byPair[key] + 1];
      }
      var pcKey := CreatePair(req.vAddr, req.pc);
      var byPc := readvAddrPcCount;
      if pcKey !in byPc {
        byPc := byPc[pcKey := 1];
      } else {
        byPc := byPc[pcKey := byPc[pcKey] + 1];
      }
      assert byPair == Inc(readvAddrpAddrCount, key) && byPc == Inc(readvAddrPcCount, pcKey);
      readvAddrpAddrCount, readvAddrPcCount := byPair, byPc;
    }

    /** A write request, as WriteRequest says. */
    method GetWriteRequest(req: MemRequest)
      modifies this
      ensures State() == WriteRequest(old(State()), req)
    {
      var key := CreatePair(req.vAddr, req.pAddr);
      var byPair := writevAddrpAddrCount;
      if key !in byPair {
        byPair := byPair[key := 1];
      } else {
        byPair := byPair[key := byPair[key] + 1];
      }
      var pcKey := CreatePair(req.vAddr, req.pc);
      var byPc := writevAddrPcCount;
      if pcKey !in byPc {
        byPc := byPc[pcKey := 1];
      } else {
        byPc := byPc[pcKey := byPc[pcKey] + 1];
      }
      assert byPair == Inc(writevAddrpAddrCount, key) && byPc == Inc(writevAddrPcCount, pcKey);
      writevAddrpAddrCount, writevAddrPcCount := byPair, byPc;
    }

    /** Counts one more execution of the block ending at `pc`. */
    method CountBlock(pc: Addr)
      modifies this
      ensures State() == old(State()).(basicBlockCount := Inc(old(basicBlockCount), pc))
    {
      if pc !in basicBlockCount {
        basicBlockCount := basicBlockCount[pc := 1];
      } else {
        basicBlockCount := basicBlockCount[pc := basicBlockCount[pc] + 1];
      }
    }

    /** Records the length of the block ending at `pc` unless one is
        recorded already. */
    method RecordBlockLength(pc: Addr)
      modifies this
      ensures State() == old(State()).(basicBlockInstProfile := FirstWins(old(basicBlockInstProfile), pc, basicBlockInstCount))
    {
      if pc !in basicBlockInstProfile {
        basicBlockInstProfile := basicBlockInstProfile[pc := basicBlockInstCount];
      }
    }

    /** One committed instruction, `pc` and whether it is a control
        instruction. */
    method GetPc(pc: Addr, isControl: bool)
      modifies this
      ensures State() == PcStep(old(State()), pc, isControl)
    {
      basicBlockInstCount := basicBlockInstCount + 1;
      intervalCount := intervalCount + 1;
      if isControl {
        CountBlock(pc);
        RecordBlockLength(pc);
        basicBlockInstCount := 0;
        if intervalCount >= intervalLength {
          exitRequests := exitRequests + 1;
        }
      }
    }

    method GetReadvAddrpAddrCount() returns (r: map<string, nat>)
      ensures r == readvAddrpAddrCount
    {
      r := readvAddrpAddrCount;
    }

    method ClearReadvAddrpAddrCount()
      modifies this
      ensures State() == old(State()).(readvAddrpAddrCount := map[])
    {
      readvAddrpAddrCount := map[];
    }

    method GetWritevAddrpAddrCount() returns (r: map<string, nat>)
      ensures r == writevAddrpAddrCount
    {
      r := writevAddrpAddrCount;
    }

    method ClearWritevAddrpAddrCount()
      modifies this
      ensures State() == old(State()).(writevAddrpAddrCount := map[])
    {
      writevAddrpAddrCount := map[];
    }

    method GetReadvAddrPcCount() returns (r: map<string, nat>)
      ensures r == readvAddrPcCount
    {
      r := readvAddrPcCount;
    }

    method ClearReadvAddrPcCount()
      modifies this
      ensures State() == old(State()).(readvAddrPcCount := map[])
    {
      readvAddrPcCount := map[];
    }

    method GetWritevAddrPcCount() returns (r: map<string, nat>)
      ensures r == writevAddrPcCount
    {
      r := writevAddrPcCount;
    }

    method ClearWritevAddrPcCount()
      modifies this
      ensures State() == old(State()).(writevAddrPcCount := map[])
    {
      writevAddrPcCount := map[];
    }

    method GetvAddrMoveCount() returns (r: map<Addr, nat>)
      ensures r == vAddrMoveCount
    {
      r := vAddrMoveCount;
    }

    method ClearvAddrMoveCount()
      modifies this
      ensures State() == old(State()).(vAddrMoveCount := map[])
    {
      vAddrMoveCount := map[];
    }

    method GetBasicBlockCount() returns (r: map<Addr, nat>)
      ensures r == basicBlockCount
    {
      r := basicBlockCount;
    }

    /** Empties the block counts only: first-seen block lengths survive. */
    method ClearBasicBlockCount()
      modifies this
      ensures State() == old(State()).(basicBlockCount := map[])
    {
      basicBlockCount := map[];
    }

    method GetBasicBlockInstProfile() returns (r: map<Addr, nat>)
      ensures r == basicBlockInstProfile
    {
      r := basicBlockInstProfile;
    }

    method GetIntervalCount() returns (r: nat)
      ensures r == intervalCount
    {
      r := intervalCount;
    }

    method ClearIntervalCount()
      modifies this
      ensures State() == old(State()).(intervalCount := 0)
    {
      intervalCount := 0;
    }
  }
}
