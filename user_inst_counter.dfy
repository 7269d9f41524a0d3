/** User/non-user instruction counting: a UserInstCounter listener reports
    each committed instruction to a shared UserInstCounterManager, which
    keeps one tally of user-mode instructions and one of the rest. */
module UserInstCounter {

  /** The manager's two tallies. */
  datatype Tally = Tally(userInstCount: nat, noneUserInstCount: nat)

  /** `checkInst`: exactly one tally rises by one, chosen by the mode. */
  function CheckInstStep(t: Tally, isUserInst: bool): (t': Tally)
    ensures t'.userInstCount + t'.noneUserInstCount == t.userInstCount + t.noneUserInstCount + 1
    ensures isUserInst ==> t'.noneUserInstCount == t.noneUserInstCount
    ensures !isUserInst ==> t'.userInstCount == t.userInstCount
  {
    if isUserInst then t.(userInstCount := t.userInstCount + 1)
    else t.(noneUserInstCount := t.noneUserInstCount + 1)
  }

  /** The tallies after reporting every instruction of `trace` (true for a
      user-mode instruction). */
  function RunInsts(t: Tally, trace: seq<bool>): Tally
    decreases |trace|
  {
    if trace == [] then t else RunInsts(CheckInstStep(t, trace[0]), trace[1..])
  }

  /** The number of entries of `trace` equal to `b`. */
  function Occurrences(trace: seq<bool>, b: bool): (n: nat)
    ensures n <= |trace|
    decreases |trace|
  {
    if trace == [] then 0 else (if trace[0] == b then 1 else 0) + Occurrences(trace[1..], b)
  }

  /** From fresh tallies, the user tally counts exactly the user-mode
      instructions of the trace and the other tally exactly the rest. */
  lemma {:induction false} TalliesCountTrace(t: Tally, trace: seq<bool>)
    ensures RunInsts(t, trace).userInstCount == t.userInstCount + Occurrences(trace, true)
    ensures RunInsts(t, trace).noneUserInstCount == t.noneUserInstCount + Occurrences(trace, false)
    decreases |trace|
  {
    if trace != [] {
      TalliesCountTrace(CheckInstStep(t, trace[0]), trace[1..]);
    }
  }

  /** Every instruction lands in exactly one tally. */
  lemma {:induction false} OccurrencesPartition(trace: seq<bool>)
    ensures Occurrences(trace, true) + Occurrences(trace, false) == |trace|
    decreases |trace|
  {
    if trace != [] {
      OccurrencesPartition(trace[1..]);
    }
  }

  /** The listener's registration state: the `ifStartListening` flag and the
      number of probe listeners it has registered. */
  datatype Registration = Registration(ifStartListening: bool, listeners: nat)

  /** `regProbeListeners`: registers one listener when the flag is set. */
  function Registering(r: Registration): (r': Registration)
    ensures r'.ifStartListening == r.ifStartListening
    ensures r'.listeners == r.listeners + (if r.ifStartListening then 1 else 0)
  {
    if r.ifStartListening then r.(listeners := r.listeners + 1) else r
  }

  /** `startListening`: registers and sets the flag only when no listener
      is registered; otherwise nothing changes. */
  function Started(r: Registration): (r': Registration)
    ensures r.listeners == 0 ==> r' == Registration(true, 1)
    ensures r.listeners != 0 ==> r' == r
    ensures r'.listeners >= 1
  {
    if r.listeners == 0 then Registration(true, 1) else r
  }

  /** Starting twice registers no second listener. */
  lemma StartIdempotent(r: Registration)
    ensures Started(Started(r)) == Started(r)
  {
  }

  /** Starting a listener that registered at start-up (its flag set)
      registers no second listener. */
  lemma StartAfterRegistering(r: Registration)
    requires r.ifStartListening && r.listeners == 0
    ensures Started(Registering(r)) == Registering(r)
    ensures Started(Registering(r)).listeners == 1
  {
  }

  /** The shared manager. */
  class UserInstCounterManager {
    var userInstCount: nat
    var noneUserInstCount: nat

    ghost function State(): Tally
      reads this
    {
      Tally(userInstCount, noneUserInstCount)
    }

    constructor ()
      ensures State() == Tally(0, 0)
    {
      userInstCount := 0;
      noneUserInstCount := 0;
    }

    method IncreaseUserInstCount()
      modifies this
      ensures State() == old(State()).(userInstCount := old(userInstCount) + 1)
    {
      userInstCount := userInstCount + 1;
    }

    method IncreaseNoneUserInstCount()
      modifies this
      ensures State() == old(State()).(noneUserInstCount := old(noneUserInstCount) + 1)
    {
      noneUserInstCount := noneUserInstCount + 1;
    }

    method GetUserInstCount() returns (n: nat)
      ensures n == userInstCount
    {
      n := userInstCount;
    }

    method GetNoneUserInstCount() returns (n: nat)
      ensures n == noneUserInstCount
    {
      n := noneUserInstCount;
    }

    method ResetUserInstCount()
      modifies this
      ensures State() == old(State()).(userInstCount := 0)
    {
      userInstCount := 0;
    }

    method ResetNoneUserInstCount()
      modifies this
      ensures State() == old(State()).(noneUserInstCount := 0)
    {
      noneUserInstCount := 0;
    }
  }

  /** The outcome of building a listener: the listener, or the fatal error
      raised when no manager is given. */
  datatype Construction = Constructed(counter: UserInstCounter) | Fatal(message: string)

  /** A listener reporting to its manager. */
  class UserInstCounter {
    var ifStartListening: bool
    var listeners: nat
    const manager: UserInstCounterManager

    ghost function Registered(): Registration
      reads this
    {
      Registration(ifStartListening, listeners)
    }

    constructor (mgr: UserInstCounterManager, startListening: bool)
      ensures manager == mgr && Registered() == Registration(startListening, 0)
    {
      ifStartListening := startListening;
      listeners := 0;
      manager := mgr;
    }

    /** Builds a listener; a missing manager is a fatal error. */
    static method Create(mgr: UserInstCounterManager?, startListening: bool) returns (c: Construction)
      ensures mgr == null <==> c.Fatal?
      ensures c.Constructed? ==> fresh(c.counter) && c.counter.manager == mgr
                                 && c.counter.Registered() == Registration(startListening, 0)
    {
      if mgr == null {
        return Fatal("UserInstCounter must have a UserInstCounterManager");
      }
      var counter := new UserInstCounter(mgr, startListening);
      return Constructed(counter);
    }

    method RegProbeListeners()
      modifies this
      ensures Registered() == Registering(old(Registered()))
    {
      if ifStartListening {
        listeners := listeners + 1;
      }
    }

    method StartListening()
      modifies this
      ensures Registered() == Started(old(Registered()))
    {
      if listeners == 0 {
        ifStartListening := true;
        listeners := listeners + 1;
      }
    }

    /** Clears the flag and every registered listener. */
    method StopListening()
      modifies this
      ensures Registered() == Registration(false, 0)
    {
      ifStartListening := false;
      listeners := 0;
    }

    /** Reports one committed instruction to the manager. */
    method CheckInst(isUserInst: bool)
      modifies manager
      ensures manager.State() == CheckInstStep(old(manager.State()), isUserInst)
    {
      if isUserInst {
        manager.IncreaseUserInstCount();
      } else {
        manager.IncreaseNoneUserInstCount();
      }
    }
  }
}
