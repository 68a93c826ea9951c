/** Locks are taken strictly in the order index, connection, network; hence no deadlock. */
module DaemonLocks {
  import opened Wrappers
  import opened Records
  import opened Daemon
  import opened DaemonInvariant
  import opened DaemonSafety

  function Rank(lock: Lock): nat {
    match lock
    case Index => 0
    case Connection(_) => 1
    case Network => 2
  }

  /** A thread waits only for a lock above every lock it holds. */
  lemma WaitsUpward(p: Phase, held: Lock)
    requires Wants(p).Some? && Holds(p, held)
    ensures Rank(held) < Rank(Wants(p).value)
  {
  }

  /** Thread `t` waits for a lock that thread `u` holds. */
  predicate WaitsFor(s: State, t: nat, u: nat) {
    Wants(PhaseOf(s, t)).Some? && Holds(PhaseOf(s, u), Wants(PhaseOf(s, t)).value)
  }

  lemma WaitingClimbs(s: State, t: nat, u: nat, v: nat)
    requires WaitsFor(s, t, u) && WaitsFor(s, u, v)
    ensures Rank(Wants(PhaseOf(s, t)).value) < Rank(Wants(PhaseOf(s, u)).value)
  {
    hide Wants, Holds;
    WaitsUpward(PhaseOf(s, u), Wants(PhaseOf(s, t)).value);
  }

  /** A chain of waiting threads, each for a lock the next one holds. */
  predicate Chain(s: State, threads: seq<nat>) {
    forall i :: 0 <= i < |threads| - 1 ==> WaitsFor(s, threads[i], threads[i + 1])
  }

  lemma {:induction false} ChainClimbs(s: State, threads: seq<nat>, last: nat)
    requires |threads| >= 1 && Chain(s, threads) && WaitsFor(s, threads[|threads| - 1], last)
    ensures Wants(PhaseOf(s, threads[0])).Some?
    ensures Rank(Wants(PhaseOf(s, threads[0])).value) + |threads| - 1 <= Rank(Wants(PhaseOf(s,
        threads[|threads| - 1])).value)
    decreases |threads|
  {
    hide Wants, Holds, Rank;
    if |threads| > 1 {
      var rest := threads[1..];
      assert Chain(s, rest) by {
        forall i | 0 <= i < |rest| - 1
          ensures WaitsFor(s, rest[i], rest[i + 1])
        {
          assert WaitsFor(s, threads[i + 1], threads[i + 2]);
        }
      }
      ChainClimbs(s, rest, last);
      assert WaitsFor(s, threads[0], threads[1]);
      assert WaitsFor(s, rest[0], if |rest| == 1 then last else rest[1]);
      WaitingClimbs(s, threads[0], threads[1], if |rest| == 1 then last else rest[1]);
    }
  }

  /** No state, reachable or not, has a cycle of threads waiting for one another. */
  lemma NoCycle(s: State, threads: seq<nat>)
    requires |threads| >= 1 && Chain(s, threads)
    ensures !WaitsFor(s, threads[|threads| - 1], threads[0])
  {
    var first, last := threads[0], threads[|threads| - 1];
    if WaitsFor(s, last, first) {
      ChainClimbs(s, threads, first);
      if |threads| > 1 {
        assert WaitsFor(s, threads[0], threads[1]);
      }
      WaitsUpward(PhaseOf(s, first), Wants(PhaseOf(s, last)).value);
    }
  }


  /** The thread that blocks `t`, if the lock it waits for is taken. */
  lemma Blocker(s: State, t: nat) returns (u: nat)
    requires Wants(PhaseOf(s, t)).Some? && !LockFree(s, Wants(PhaseOf(s, t)).value)
    ensures WaitsFor(s, t, u) && u in s.threads
  {
    hide Wants, Holds;
    u :| u in s.threads && Holds(s.threads[u], Wants(PhaseOf(s, t)).value);
  }

  lemma HolderActive(p: Phase, lock: Lock)
    requires Holds(p, lock)
    ensures !p.Idle?
  {
  }

  /** As long as some thread has not finished, some thread can go on. */
  lemma {:induction false} SomeoneMoves(s: State, t: nat) returns (u: nat)
    requires !PhaseOf(s, t).Idle?
    ensures Enabled(s, Acquire(u)) || (forall c :: Enabled(s, Run(u, c)))
    decreases if Wants(PhaseOf(s, t)).Some? then 3 - Rank(Wants(PhaseOf(s, t)).value) else 0
  {
    hide Wants, Holds;
    u := t;
    if Wants(PhaseOf(s, t)).Some? && !LockFree(s, Wants(PhaseOf(s, t)).value) {
      var blocker := Blocker(s, t);
      HolderActive(PhaseOf(s, blocker), Wants(PhaseOf(s, t)).value);
      if Wants(PhaseOf(s, blocker)).Some? {
        WaitsUpward(PhaseOf(s, blocker), Wants(PhaseOf(s, t)).value);
      }
      u := SomeoneMoves(s, blocker);
    }
  }
}
