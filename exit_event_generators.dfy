/** The exit-event generators of the Python simulation loop. Each generator
    is an object whose Step models one resume (`next`): it returns what the
    generator yields (True tells the loop to exit) or the exception it
    raises, and every checkpoint it takes is appended to a log of the
    checkpoints taken, each saved under the name CheckpointName gives it. */
module ExitEventGenerators {
  import opened Numerals

  datatype Option<T> = None | Some(value: T)

  /** Exceptions a resume can raise. */
  datatype PyError = IndexError | StopIteration

  /** The outcome of one resume. */
  datatype Resume = Yield(value: bool) | Raised(error: PyError)

  /** `exit_generator`: every resume yields True. */
  class ExitGenerator {
    constructor () {}

    method Step() returns (b: bool)
      ensures b
    {
      b := true;
    }
  }

  /** `skip_generator`: every resume yields False. */
  class SkipGenerator {
    constructor () {}

    method Step() returns (b: bool)
      ensures !b
    {
      b := false;
    }
  }

  /** `switch_generator`: yields the result of switching the processor when
      it is switchable (`switched`, the result of that foreign call), and
      False forever otherwise. */
  class SwitchGenerator {
    const isSwitchable: bool

    constructor (switchable: bool)
      ensures isSwitchable == switchable
    {
      isSwitchable := switchable;
    }

    method Step(switched: bool) returns (b: bool)
      ensures !isSwitchable ==> !b
      ensures isSwitchable ==> b == switched
    {
      if isSwitchable {
        b := switched;
      } else {
        b := false;
      }
    }
  }

  // ---------------------------------------------------------------------
  // SimPoint checkpoints

  /** A checkpoint a generator takes, by what it is taken for. */
  datatype Checkpoint = SimPoint(index: nat) | Region(region: int)

  /** The directory name a checkpoint is saved under: `cpt.SimPoint<i>` or
      `cpt.Region<r>`, the number as Python's `str` writes it. */
  function CheckpointName(c: Checkpoint): (s: string)
    // the fifth character tells the two kinds apart
    ensures |s| > 4 && s[4] == (if c.SimPoint? then 'S' else 'R')
  {
    match c
    case SimPoint(i) => "cpt.SimPoint" + Dec(i)
    case Region(r) => "cpt.Region" + IntToString(r)
  }

  /** Different checkpoints are saved under different names. */
  lemma CheckpointNameInjective(c1: Checkpoint, c2: Checkpoint)
    requires CheckpointName(c1) == CheckpointName(c2)
    ensures c1 == c2
  {
    var n := CheckpointName(c1);
    if c1.SimPoint? && c2.SimPoint? {
      var p := |"cpt.SimPoint"|;
      assert Dec(c1.index) == n[p..] == Dec(c2.index);
      DecInjective(c1.index, c2.index);
    } else if c1.Region? && c2.Region? {
      var p := |"cpt.Region"|;
      assert IntToString(c1.region) == n[p..] == IntToString(c2.region);
      IntToStringInjective(c1.region, c2.region);
    }
  }

  /** The checkpoints of SimPoints `a` up to (not including) `b`, in order. */
  function SimPointCheckpoints(a: nat, b: nat): (cs: seq<Checkpoint>)
    ensures |cs| == if b <= a then 0 else b - a
    decreases b
  {
    if b <= a then [] else SimPointCheckpoints(a, b - 1) + [SimPoint(b - 1)]
  }

  /** Entry `k` of such a list is the checkpoint of SimPoint `a + k`. */
  lemma {:induction false} SimPointCheckpointsAt(a: nat, b: nat, k: nat)
    requires k < |SimPointCheckpoints(a, b)|
    ensures SimPointCheckpoints(a, b)[k] == SimPoint(a + k)
    decreases b
  {
    if a + k < b - 1 {
      SimPointCheckpointsAt(a, b - 1, k);
    }
  }

  /** Each directory is written at most once: the checkpoints of such a
      list are saved under pairwise different names. */
  lemma SimPointCheckpointsDistinct(a: nat, b: nat, i: nat, j: nat)
    requires i < j < |SimPointCheckpoints(a, b)|
    ensures CheckpointName(SimPointCheckpoints(a, b)[i]) != CheckpointName(SimPointCheckpoints(a, b)[j])
  {
    SimPointCheckpointsAt(a, b, i);
    SimPointCheckpointsAt(a, b, j);
    if CheckpointName(SimPointCheckpoints(a, b)[i]) == CheckpointName(SimPointCheckpoints(a, b)[j]) {
      CheckpointNameInjective(SimPointCheckpoints(a, b)[i], SimPointCheckpoints(a, b)[j]);
    }
  }

  /** The index just past the run of equal starts beginning at `c`. */
  function RunEnd(starts: seq<int>, c: nat): (e: nat)
    requires c < |starts|
    ensures c < e <= |starts|
    ensures forall k :: c <= k < e ==> starts[k] == starts[c]
    ensures e < |starts| ==> starts[e] != starts[c]
    decreases |starts| - c
  {
    if c + 1 < |starts| && starts[c + 1] == starts[c] then RunEnd(starts, c + 1) else c + 1
  }

  /** RunEnd is the only index that ends the run of equal starts at `c`. */
  lemma {:induction false} RunEndIs(starts: seq<int>, c: nat, e: nat)
    requires c < e <= |starts|
    requires forall k :: c <= k < e ==> starts[k] == starts[c]
    requires e < |starts| ==> starts[e] != starts[c]
    ensures RunEnd(starts, c) == e
    decreases e - c
  {
    if c + 1 < e {
      RunEndIs(starts, c + 1, e);
    }
  }

  /** The state of a SimPoint generator between resumes. */
  datatype SimPointState = SimPointState(count: nat, lastStart: int, finished: bool, checkpoints: seq<Checkpoint>)

  const SimPointInitial := SimPointState(0, -1, false, [])

  /** One resume of `simpoints_save_checkpoint_generator`. A finished
      generator raises StopIteration. Otherwise SimPoint `count` is
      checkpointed first; when `count` is past the end, reading its start
      raises IndexError, which finishes the generator. Otherwise every
      following SimPoint with the same start is checkpointed too, and the
      generator yields whether the list is exhausted. */
  function SimPointStep(starts: seq<int>, s: SimPointState): (r: (SimPointState, Resume))
    ensures s.finished ==> r == (s, Raised(StopIteration))
    ensures !s.finished && s.count >= |starts| ==>
              r.1 == Raised(IndexError) && r.0.finished && r.0.checkpoints == s.checkpoints + [SimPoint(s.count)]
    ensures !s.finished && s.count < |starts| ==>
              s.count < r.0.count <= |starts| && r.1 == Yield(r.0.count == |starts|) && !r.0.finished
              && r.0.checkpoints == s.checkpoints + SimPointCheckpoints(s.count, r.0.count)
              && r.0.count == RunEnd(starts, s.count)
  {
    if s.finished then (s, Raised(StopIteration))
    else if s.count >= |starts| then
      (s.(checkpoints := s.checkpoints + [SimPoint(s.count)], finished := true), Raised(IndexError))
    else
      var e := RunEnd(starts, s.count);
      (s.(count := e, lastStart := starts[e - 1], checkpoints := s.checkpoints + SimPointCheckpoints(s.count, e)),
       Yield(e == |starts|))
  }

  /** Resumes the generator while it yields False, at most `fuel` times;
      reports whether it yielded True. */
  function SimPointDrive(starts: seq<int>, s: SimPointState, fuel: nat): (SimPointState, bool)
    decreases fuel
  {
    if fuel == 0 then (s, false)
    else
      var r := SimPointStep(starts, s);
      if r.1 == Yield(true) then (r.0, true)
      else if r.1 == Yield(false) then SimPointDrive(starts, r.0, fuel - 1)
      else (r.0, false)
  }

  /** A full run: from a state whose log names exactly the SimPoints before
      `count`, resuming until True takes at most the number of remaining
      SimPoints, and the log then names every SimPoint exactly once, in
      increasing order. */
  lemma {:induction false} SimPointFullRun(starts: seq<int>, s: SimPointState, fuel: nat)
    requires s.count < |starts| && !s.finished && s.checkpoints == SimPointCheckpoints(0, s.count)
    requires fuel >= |starts| - s.count
    ensures SimPointDrive(starts, s, fuel).1
    ensures SimPointDrive(starts, s, fuel).0.count == |starts|
    ensures SimPointDrive(starts, s, fuel).0.checkpoints == SimPointCheckpoints(0, |starts|)
    decreases fuel
  {
    var next := SimPointStep(starts, s).0;
    SimPointDriveUnfold(starts, s, fuel);
    SimPointCheckpointsAppend(0, s.count, next.count);
    if next.count < |starts| {
      SimPointFullRun(starts, next, fuel - 1);
    }
  }

  /** One resume of a run that has not finished. */
  lemma SimPointDriveUnfold(starts: seq<int>, s: SimPointState, fuel: nat)
    requires s.count < |starts| && !s.finished && fuel >= 1
    ensures var next := SimPointStep(starts, s).0;
            && s.count < next.count <= |starts|
            && next.checkpoints == s.checkpoints + SimPointCheckpoints(s.count, next.count)
            && !next.finished
            && SimPointDrive(starts, s, fuel)
               == if next.count == |starts| then (next, true) else SimPointDrive(starts, next, fuel - 1)
  {
  }

  lemma {:induction false} SimPointCheckpointsAppend(a: nat, b: nat, c: nat)
    requires a <= b <= c
    ensures SimPointCheckpoints(a, b) + SimPointCheckpoints(b, c) == SimPointCheckpoints(a, c)
    decreases c
  {
    if b < c {
      SimPointCheckpointsAppend(a, b, c - 1);
    } else {
      assert SimPointCheckpoints(b, c) == [];
    }
  }

  /** A fresh generator over a non-empty list ends with every name once. */
  lemma SimPointFromStart(starts: seq<int>)
    requires |starts| > 0
    ensures SimPointDrive(starts, SimPointInitial, |starts|).1
    ensures SimPointDrive(starts, SimPointInitial, |starts|).0.checkpoints == SimPointCheckpoints(0, |starts|)
  {
    SimPointFullRun(starts, SimPointInitial, |starts|);
  }

  /** With an empty list the first resume checkpoints `cpt.SimPoint0` and
      then raises IndexError. */
  lemma SimPointEmptyList()
    ensures SimPointStep([], SimPointInitial) == (SimPointInitial.(checkpoints := [SimPoint(0)], finished := true), Raised(IndexError))
    ensures CheckpointName(SimPoint(0)) == "cpt.SimPoint0"
  {
    assert Dec(0) == "0";
    assert [] + [SimPoint(0)] == [SimPoint(0)];
  }

  /** The body of one resume of the SimPoint generator, on its local
      variables: reads the start of SimPoint `c0`, whose name `log` already
      ends with, and checkpoints every following SimPoint with the same
      start. The result is the state SimPointStep describes. */
  method TakeRun(starts: seq<int>, c0: nat, log: seq<Checkpoint>, ghost log0: seq<Checkpoint>)
    returns (count: nat, lastStart: int, checkpoints: seq<Checkpoint>)
    requires c0 < |starts| && log == log0 + [SimPoint(c0)]
    ensures count == RunEnd(starts, c0)
    ensures lastStart == starts[count - 1]
    ensures checkpoints == log0 + SimPointCheckpoints(c0, count)
  {
    checkpoints := log;
    lastStart := starts[c0];
    count := c0 + 1;
    assert SimPointCheckpoints(c0, count) == [SimPoint(c0)];
    while count < |starts| && lastStart == starts[count]
      invariant c0 < count <= |starts|
      invariant lastStart == starts[c0]
      invariant forall k :: c0 <= k < count ==> starts[k] == starts[c0]
      invariant checkpoints == log0 + SimPointCheckpoints(c0, count)
      decreases |starts| - count
    {
      assert SimPointCheckpoints(c0, count + 1) == SimPointCheckpoints(c0, count) + [SimPoint(count)];
      checkpoints := checkpoints + [SimPoint(count)];
      lastStart := starts[count];
      count := count + 1;
    }
    RunEndIs(starts, c0, count);
  }

  /** `simpoints_save_checkpoint_generator` over the SimPoint start list. */
  class SimPointGenerator {
    const simpointList: seq<int>
    var count: nat
    var lastStart: int
    var finished: bool
    var checkpoints: seq<Checkpoint>

    ghost function State(): SimPointState
      reads this
    {
      SimPointState(count, lastStart, finished, checkpoints)
    }

    constructor (starts: seq<int>)
      ensures simpointList == starts && State() == SimPointInitial
    {
      simpointList := starts;
      count := 0;
      lastStart := -1;
      finished := false;
      checkpoints := [];
    }

    method Step() returns (r: Resume)
      modifies this
      ensures (State(), r) == SimPointStep(simpointList, old(State()))
    {
      if finished {
        return Raised(StopIteration);
      }
      ghost var log0 := checkpoints;
      checkpoints := checkpoints + [SimPoint(count)];
      if count >= |simpointList| {
        finished := true;
        return Raised(IndexError);
      }
      count, lastStart, checkpoints := TakeRun(simpointList, count, checkpoints, log0);
      if count < |simpointList| {
        return Yield(false);
      } else {
        return Yield(true);
      }
    }
  }

  // ---------------------------------------------------------------------
  // LoopPoint checkpoints

  /** Python truthiness of what `get_current_region` returns. */
  predicate Truthy(region: Option<int>) {
    region.Some? && region.value != 0
  }

  /** The state of a LoopPoint generator between resumes; `relativeUpdates`
      counts the calls to `update_relatives_counts`. */
  datatype LoopPointState = LoopPointState(totalPairs: int, finished: bool, checkpoints: seq<Checkpoint>, relativeUpdates: nat)

  /** The state before the first resume: `len(targets)` pairs to go with
      `exit_when_empty`, and -1, which never reaches 0, without it. */
  function LoopPointInitial(targets: nat, exitWhenEmpty: bool): (s: LoopPointState)
    ensures s.totalPairs == if exitWhenEmpty then targets else -1
    ensures !s.finished && s.checkpoints == [] && s.relativeUpdates == 0
  {
    LoopPointState(if exitWhenEmpty then targets else -1, false, [], 0)
  }

  /** One resume of `looppoint_save_checkpoint_generator`, `region` being
      what `get_current_region` returns at that point. */
  function LoopPointStep(updateRelatives: bool, s: LoopPointState, region: Option<int>): (r: (LoopPointState, Resume))
    ensures s.finished ==> r == (s, Raised(StopIteration))
    ensures !s.finished && s.totalPairs == 0 ==> r == (s.(finished := true), Yield(true))
    ensures !s.finished && s.totalPairs != 0 ==>
              r.1 == Yield(false) && !r.0.finished && r.0.totalPairs == s.totalPairs - 1
              && r.0.checkpoints == s.checkpoints + (if Truthy(region) then [Region(region.value)] else [])
              && r.0.relativeUpdates == s.relativeUpdates + (if Truthy(region) && updateRelatives then 1 else 0)
  {
    if s.finished then (s, Raised(StopIteration))
    else if s.totalPairs == 0 then (s.(finished := true), Yield(true))
    else
      var s1 := if Truthy(region) then
                  s.(relativeUpdates := if updateRelatives then s.relativeUpdates + 1 else s.relativeUpdates,
                     checkpoints := s.checkpoints + [Region(region.value)])
                else s;
      (s1.(totalPairs := s.totalPairs - 1), Yield(false))
  }

  /** What the generator produces over a series of resumes. */
  function LoopPointRun(updateRelatives: bool, s: LoopPointState, regions: seq<Option<int>>): (outs: seq<Resume>)
    ensures |outs| == |regions|
    decreases |regions|
  {
    if regions == [] then []
    else
      var r := LoopPointStep(updateRelatives, s, regions[0]);
      [r.1] + LoopPointRun(updateRelatives, r.0, regions[1..])
  }

  /** With a non-negative pair count `n`, the generator yields False on the
      first `n` resumes, True on the next, and raises StopIteration after. */
  lemma {:induction false} LoopPointCountsDown(updateRelatives: bool, s: LoopPointState, regions: seq<Option<int>>)
    requires !s.finished && s.totalPairs >= 0
    ensures forall i :: 0 <= i < |regions| ==>
              LoopPointRun(updateRelatives, s, regions)[i]
                == if i < s.totalPairs then Yield(false) else if i == s.totalPairs then Yield(true) else Raised(StopIteration)
    decreases |regions|
  {
    if regions != [] {
      var r := LoopPointStep(updateRelatives, s, regions[0]);
      var outs := LoopPointRun(updateRelatives, s, regions);
      if s.totalPairs > 0 {
        LoopPointCountsDown(updateRelatives, r.0, regions[1..]);
      } else {
        FinishedRaises(updateRelatives, r.0, regions[1..]);
      }
    }
  }

  /** A finished generator only raises StopIteration. */
  lemma {:induction false} FinishedRaises(updateRelatives: bool, s: LoopPointState, regions: seq<Option<int>>)
    requires s.finished
    ensures forall i :: 0 <= i < |regions| ==> LoopPointRun(updateRelatives, s, regions)[i] == Raised(StopIteration)
    decreases |regions|
  {
    if regions != [] {
      FinishedRaises(updateRelatives, s, regions[1..]);
    }
  }

  /** With a negative pair count (no `exit_when_empty`) the count only falls,
      so the generator yields False on every resume and never True. */
  lemma {:induction false} LoopPointNeverExits(updateRelatives: bool, s: LoopPointState, regions: seq<Option<int>>)
    requires !s.finished && s.totalPairs < 0
    ensures forall i :: 0 <= i < |regions| ==> LoopPointRun(updateRelatives, s, regions)[i] == Yield(false)
    decreases |regions|
  {
    if regions != [] {
      LoopPointNeverExits(updateRelatives, LoopPointStep(updateRelatives, s, regions[0]).0, regions[1..]);
    }
  }

  /** `looppoint_save_checkpoint_generator`. */
  class LoopPointGenerator {
    const updateRelatives: bool
    var totalPairs: int
    var finished: bool
    var checkpoints: seq<Checkpoint>
    var relativeUpdates: nat

    ghost function State(): LoopPointState
      reads this
    {
      LoopPointState(totalPairs, finished, checkpoints, relativeUpdates)
    }

    constructor (targets: nat, updateRelativesCounts: bool, exitWhenEmpty: bool)
      ensures updateRelatives == updateRelativesCounts
      ensures State() == LoopPointInitial(targets, exitWhenEmpty)
    {
      updateRelatives := updateRelativesCounts;
      totalPairs := if exitWhenEmpty then targets else -1;
      finished := false;
      checkpoints := [];
      relativeUpdates := 0;
    }

    method Step(region: Option<int>) returns (r: Resume)
      modifies this
      ensures (State(), r) == LoopPointStep(updateRelatives, old(State()), region)
    {
      if finished {
        return Raised(StopIteration);
      }
      if totalPairs == 0 {
        finished := true;
        return Yield(true);
      }
      if region.Some? && region.value != 0 {
        if updateRelatives {
          relativeUpdates := relativeUpdates + 1;
        }
        checkpoints := checkpoints + [Region(region.value)];
      }
      totalPairs := totalPairs - 1;
      return Yield(false);
    }
  }
}
