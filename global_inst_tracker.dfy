/** Batched instruction counting: each core's LocalInstCounter counts
    retired instructions locally and flushes the whole local count into one
    shared GlobalInstCounter whenever it reaches its threshold; the global
    counter requests a simulator exit once its count reaches the target. */
module GlobalInstTracker {

  /** The global counter's state; `exitRequests` counts the simulator-exit
      requests raised so far. */
  datatype GlobalState = GlobalState(targetInstCount: nat, globalInstCount: nat, exitRequests: nat)

  /** A local counter's state. */
  datatype LocalState = LocalState(localCounter: nat, updateThreshold: nat)

  /** `update_global_inst`: adds a batch, then requests the exit when the
      sum has reached the target. */
  function AddToGlobal(g: GlobalState, localInst: nat): (g': GlobalState)
    ensures g'.globalInstCount == g.globalInstCount + localInst
    ensures g'.exitRequests > g.exitRequests <==> g'.globalInstCount >= g.targetInstCount
    ensures g'.exitRequests <= g.exitRequests + 1
    ensures g'.targetInstCount == g.targetInstCount
  {
    var count := g.globalInstCount + localInst;
    g.(globalInstCount := count,
       exitRequests := if count >= g.targetInstCount then g.exitRequests + 1 else g.exitRequests)
  }

  /** `countInst`: one retired instruction on a core. */
  function CountInstStep(l: LocalState, g: GlobalState): (r: (LocalState, GlobalState))
    // nothing is lost or counted twice by a flush
    ensures r.1.globalInstCount + r.0.localCounter == g.globalInstCount + l.localCounter + 1
    // the flush happens exactly when the threshold is reached, and empties the local count
    ensures r.0.localCounter == 0 <==> l.localCounter + 1 >= l.updateThreshold
    ensures r.1.globalInstCount != g.globalInstCount ==> r.0.localCounter == 0
    ensures l.updateThreshold >= 1 ==> r.0.localCounter < l.updateThreshold
    // the exit is only ever requested by a flush
    ensures r.1.exitRequests != g.exitRequests ==> r.0.localCounter == 0
    ensures r.0.updateThreshold == l.updateThreshold && r.1.targetInstCount == g.targetInstCount
  {
    var local := l.localCounter + 1;
    if local >= l.updateThreshold then
      (l.(localCounter := 0), AddToGlobal(g, local))
    else
      (l.(localCounter := local), g)
  }

  /** `n` instructions retired in a row on one core. */
  function CountMany(l: LocalState, g: GlobalState, n: nat): (LocalState, GlobalState)
    decreases n
  {
    if n == 0 then (l, g)
    else
      var r := CountMany(l, g, n - 1);
      CountInstStep(r.0, r.1)
  }

  /** `x` is a whole number of batches of `t`. */
  ghost predicate WholeBatches(x: nat, t: nat)
    requires t >= 1
    decreases x
  {
    x == 0 || (x >= t && WholeBatches(x - t, t))
  }

  /** On a single core with threshold `t >= 1` the global counter only ever
      receives whole batches of `t`: after `n` instructions from an empty
      local count, the global count grew by a multiple of `t`, the local
      count holds the remainder below `t`, and together they account for
      all `n` instructions. */
  lemma {:induction false} SingleCoreBatches(l: LocalState, g: GlobalState, n: nat)
    requires l.updateThreshold >= 1 && l.localCounter == 0
    ensures CountMany(l, g, n).0.updateThreshold == l.updateThreshold
    ensures CountMany(l, g, n).0.localCounter < l.updateThreshold
    ensures CountMany(l, g, n).1.globalInstCount >= g.globalInstCount
    ensures CountMany(l, g, n).1.globalInstCount + CountMany(l, g, n).0.localCounter == g.globalInstCount + n
    ensures WholeBatches(CountMany(l, g, n).1.globalInstCount - g.globalInstCount, l.updateThreshold)
    decreases n
  {
    if n > 0 {
      SingleCoreBatches(l, g, n - 1);
      var r := CountMany(l, g, n - 1);
      var d := r.1.globalInstCount - g.globalInstCount;
      if r.0.localCounter + 1 >= l.updateThreshold {
        assert WholeBatches(d + l.updateThreshold, l.updateThreshold) by {
          assert d + l.updateThreshold - l.updateThreshold == d;
        }
      }
    }
  }

  /** The sum of the local counts of all cores. */
  function LocalSum(locals: seq<LocalState>): nat
    decreases |locals|
  {
    if locals == [] then 0 else LocalSum(locals[..|locals| - 1]) + locals[|locals| - 1].localCounter
  }

  lemma {:induction false} LocalSumUpdate(locals: seq<LocalState>, i: nat, l: LocalState)
    requires i < |locals|
    ensures LocalSum(locals[i := l]) == LocalSum(locals) - locals[i].localCounter + l.localCounter
    decreases |locals|
  {
    var u := locals[i := l];
    if i < |locals| - 1 {
      assert u[..|u| - 1] == locals[..|locals| - 1][i := l];
      LocalSumUpdate(locals[..|locals| - 1], i, l);
    } else {
      assert u[..|u| - 1] == locals[..|locals| - 1];
    }
  }

  /** Several cores sharing one global counter; `trace` names the core that
      retires each instruction. */
  function RunCores(locals: seq<LocalState>, g: GlobalState, trace: seq<nat>): (r: (seq<LocalState>, GlobalState))
    requires forall k :: 0 <= k < |trace| ==> trace[k] < |locals|
    ensures |r.0| == |locals|
    decreases |trace|
  {
    if trace == [] then (locals, g)
    else
      var c := trace[0];
      var s := CountInstStep(locals[c], g);
      RunCores(locals[c := s.0], s.1, trace[1..])
  }

  /** Conservation across cores: the global count plus every core's local
      count grows by exactly the number of instructions retired. */
  lemma {:induction false} RunCoresConserves(locals: seq<LocalState>, g: GlobalState, trace: seq<nat>)
    requires forall k :: 0 <= k < |trace| ==> trace[k] < |locals|
    ensures RunCores(locals, g, trace).1.globalInstCount + LocalSum(RunCores(locals, g, trace).0)
            == g.globalInstCount + LocalSum(locals) + |trace|
    decreases |trace|
  {
    if trace != [] {
      var c := trace[0];
      var s := CountInstStep(locals[c], g);
      LocalSumUpdate(locals, c, s.0);
      var rest := trace[1..];
      assert forall k :: 0 <= k < |rest| ==> rest[k] < |locals[c := s.0]| by {
        forall k | 0 <= k < |rest| ensures rest[k] < |locals[c := s.0]| {
          assert rest[k] == trace[k + 1];
        }
      }
      RunCoresConserves(locals[c := s.0], s.1, rest);
    }
  }

  /** The shared global counter object. */
  class GlobalInstCounter {
    var targetInstCount: nat
    var globalInstCount: nat
    /** Number of simulator-exit requests raised so far. */
    ghost var exitRequests: nat

    ghost function State(): GlobalState
      reads this
    {
      GlobalState(targetInstCount, globalInstCount, exitRequests)
    }

    constructor (target: nat)
      ensures State() == GlobalState(target, 0, 0)
    {
      targetInstCount := target;
      globalInstCount := 0;
      exitRequests := 0;
    }

    method UpdateGlobalInst(localInst: nat)
      modifies this
      ensures State() == AddToGlobal(old(State()), localInst)
    {
      globalInstCount := globalInstCount + localInst;
      if globalInstCount >= targetInstCount {
        exitRequests := exitRequests + 1;
      }
    }

    method ClearGlobalCount()
      modifies this
      ensures State() == old(State()).(globalInstCount := 0)
    {
      globalInstCount := 0;
    }

    method UpdateTargetInst(newTarget: nat)
      modifies this
      ensures State() == old(State()).(targetInstCount := newTarget)
    {
      targetInstCount := newTarget;
    }
  }

  /** A per-core local counter holding a reference to the shared global one. */
  class LocalInstCounter {
    const globalCounter: GlobalInstCounter
    var localCounter: nat
    var updateThreshold: nat
    const ifListenFromStart: bool

    ghost function State(): LocalState
      reads this
    {
      LocalState(localCounter, updateThreshold)
    }

    constructor (global: GlobalInstCounter, threshold: nat, listenFromStart: bool)
      ensures globalCounter == global && ifListenFromStart == listenFromStart
      ensures State() == LocalState(0, threshold)
    {
      globalCounter := global;
      localCounter := 0;
      updateThreshold := threshold;
      ifListenFromStart := listenFromStart;
    }

    method CountInst(pc: nat)
      modifies this, globalCounter
      ensures (State(), globalCounter.State()) == CountInstStep(old(State()), old(globalCounter.State()))
    {
      localCounter := localCounter + 1;
      if localCounter >= updateThreshold {
        globalCounter.UpdateGlobalInst(localCounter);
        localCounter := 0;
      }
    }

    method ClearLocalCount()
      modifies this
      ensures State() == old(State()).(localCounter := 0)
    {
      localCounter := 0;
    }

    method UpdateThreshold(newThreshold: nat)
      modifies this
      ensures State() == old(State()).(updateThreshold := newThreshold)
    {
      updateThreshold := newThreshold;
    }
  }
}
