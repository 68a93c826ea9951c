/** The invariant of the daemon holds in every state of every run. */
module DaemonSafety {
  import opened Wrappers
  import opened Records
  import opened Daemon
  import opened DaemonInvariant
  import opened DaemonEffects
  import opened DaemonSections

  ghost predicate ThreadsOk(lang: Language, d: Shared, threads: map<nat, Phase>) {
    forall t :: t in threads ==> ThreadOk(lang, d, threads[t])
  }

  /** Mutual exclusion: no two threads hold a lock in common. */
  ghost predicate Exclusive(threads: map<nat, Phase>) {
    forall t, u :: t in threads && u in threads && t != u ==> Disjoint(threads[t], threads[u])
  }

  ghost predicate Inv(lang: Language, s: State) {
    DataOk(lang, s.shared) && ThreadsOk(lang, s.shared, s.threads) && Exclusive(s.threads)
  }

  lemma ExclusiveAfter(threads: map<nat, Phase>, t: nat, p: Phase)
    requires Exclusive(threads)
    requires forall u :: u in threads && u != t ==> Disjoint(p, threads[u])
    ensures Exclusive(threads[t := p])
  {
    hide Disjoint;
    var after := threads[t := p];
    forall u, v | u in after && v in after && u != v
      ensures Disjoint(after[u], after[v])
    {
      if v == t {
        DisjointSymmetric(p, threads[u]);
      }
    }
  }

  lemma DisjointSymmetric(p: Phase, q: Phase)
    ensures Disjoint(p, q) ==> Disjoint(q, p)
  {
    hide LocksOf, HoldsNetwork;
  }

  /** A phase without locks is disjoint from every other. */
  lemma Lockless(p: Phase, q: Phase)
    requires Within(p, Locks(false, None), false)
    ensures Disjoint(p, q)
  {
    hide HoldsIndex, HoldsConnection, HoldsNetwork;
  }

  /** A section takes no lock, so its thread stays apart from the others. */
  lemma WithinDisjoint(p: Phase, p': Phase, q: Phase)
    requires Disjoint(p, q) && Within(p', LocksOf(p), HoldsNetwork(p))
    ensures Disjoint(p', q)
  {
    hide HoldsIndex, HoldsConnection, HoldsNetwork;
  }

  // ---- threads ----------------------------------------------------------------------------------

  lemma FirstAddOk(lang: Language, d: Shared, a: Add, uid: nat)
    requires AddAccepted(a, uid)
    ensures ThreadOk(lang, d, AddWantIndex(a))
  {
    hide CopyOk, NewOk, RefreshOk, TouchOk, Here, LaunchIs, OnlySocket, ValidName;
  }

  /** The phases in which a request waits for its first lock and relies on no more than its access check. */
  lemma FirstAccessOk(lang: Language, d: Shared, p: Phase)
    requires p.RefreshWantIndex? || p.ConnectWantConn? || p.DisconnectWantConn? || p.ReconnectWantConn?
    requires AccessPart(d, p)
    ensures ThreadOk(lang, d, p)
  {
    hide AccessPart;
  }

  lemma FirstOtherOk(lang: Language, d: Shared, p: Phase)
    requires p.RemoveWantIndex? || p.EditWantConn? || p.SweepWantNetwork?
    ensures ThreadOk(lang, d, p)
  {
  }

  lemma FirstLockless(request: Request, uid: nat)
    ensures Within(FirstPhase(request, uid), Locks(false, None), false)
  {
  }

  lemma FirstAccess(d: Shared, request: Request, uid: nat)
    requires request.RefreshRequest? || request.ConnectRequest? || request.DisconnectRequest?
      || request.ReconnectRequest?
    requires AccessChecked(d, request.id, uid) && request.id in d.created
    ensures AccessPart(d, FirstPhase(request, uid))
  {
    hide Authorized;
  }

  /** Boot reconciliation acts for root, whom every record admits. */
  lemma FirstBootOk(d: Shared, id: ConnectionId)
    requires id in d.created
    ensures AccessPart(d, FirstPhase(BootRequest(id), 0))
  {
  }

  lemma FirstPhaseOk(lang: Language, d: Shared, request: Request, uid: nat)
    requires DataOk(lang, d) && Accepted(d, request, uid)
    ensures ThreadOk(lang, d, FirstPhase(request, uid)) && Within(FirstPhase(request, uid), Locks(false, None), false)
  {
    hide DataOk, ThreadOk, Within, AccessPart, RecordOk, AddAccepted;
    FirstLockless(request, uid);
    if request.AddRequest? {
      FirstAddOk(lang, d, request.add, uid);
    } else if request.RemoveRequest? || request.EditRequest? || request.SweepRequest? {
      FirstOtherOk(lang, d, FirstPhase(request, uid));
    } else if request.BootRequest? {
      FirstBootOk(d, request.id);
      FirstAccessOk(lang, d, FirstPhase(request, uid));
    } else {
      StoredRecord(lang, d, request.id);
      assert request.id in d.created by { CreatedRecord(lang, d, request.id, d.records[request.id]); }
      FirstAccess(d, request, uid);
      FirstAccessOk(lang, d, FirstPhase(request, uid));
    }
  }

  lemma CreatedRecord(lang: Language, d: Shared, id: ConnectionId, r: Record)
    requires RecordOk(lang, d, id, r)
    ensures id in d.created
  {
  }

  lemma AcquiredOk(lang: Language, d: Shared, p: Phase)
    requires Wants(p).Some? && ThreadOk(lang, d, p)
    ensures ThreadOk(lang, d, Acquired(p))
  {
    hide ReplyPart, AddPart, AccessPart, RewritePart, StoredPart, SocketPart, Acquired;
    AcquiredEarly(lang, d, p);
    AcquiredStored(lang, d, p);
  }

  lemma AcquiredEarly(lang: Language, d: Shared, p: Phase)
    requires Wants(p).Some? && ReplyPart(d, p) && AddPart(lang, d, p) && AccessPart(d, p)
    ensures ReplyPart(d, Acquired(p)) && AddPart(lang, d, Acquired(p)) && AccessPart(d, Acquired(p))
  {
    hide AddOk, CopyOk, NewOk, TouchOk, Access;
  }

  lemma AcquiredStored(lang: Language, d: Shared, p: Phase)
    requires Wants(p).Some? && RewritePart(lang, d, p) && StoredPart(d, p) && SocketPart(d, p)
    ensures RewritePart(lang, d, Acquired(p)) && StoredPart(d, Acquired(p)) && SocketPart(d, Acquired(p))
  {
    hide RefreshOk, Here, LaunchIs, OnlySocket, Matching, MarkedCurrent;
  }

  /** Taking a lock adds that lock to the ones held, and no other. */
  lemma AcquiredHolds(p: Phase, lock: Lock)
    requires Wants(p).Some?
    ensures Holds(Acquired(p), lock) <==> Holds(p, lock) || lock == Wants(p).value
  {
  }

  /** The lock is among these. */
  predicate Among(l: Locks, network: bool, lock: Lock) {
    match lock
    case Index => l.index
    case Connection(id) => l.connection == Some(id)
    case Network => network
  }

  lemma HoldsIsAmong(p: Phase, lock: Lock)
    ensures Holds(p, lock) == Among(LocksOf(p), HoldsNetwork(p), lock)
  {
  }

  /** A lock two sets of locks have in common, if they have one. */
  function Common(l: Locks, m: Locks): Lock {
    if l.index && m.index then Index
    else if l.connection.Some? && l.connection == m.connection then Connection(l.connection.value)
    else Network
  }

  lemma CommonLock(l: Locks, n: bool, m: Locks, k: bool)
    ensures DisjointLocks(l, m) && !(n && k) <==> !(Among(l, n, Common(l, m)) && Among(m, k, Common(l, m)))
  {
  }

  /** Disjoint phases hold no lock in common. */
  lemma DisjointMeans(p: Phase, q: Phase, lock: Lock)
    requires Disjoint(p, q)
    ensures !(Holds(p, lock) && Holds(q, lock))
  {
    hide Holds, LocksOf, HoldsNetwork;
    HoldsIsAmong(p, lock);
    HoldsIsAmong(q, lock);
  }

  /** Phases that are not disjoint do. */
  lemma DisjointUnless(p: Phase, q: Phase) returns (lock: Lock)
    ensures Disjoint(p, q) || (Holds(p, lock) && Holds(q, lock))
  {
    hide Holds, LocksOf, HoldsNetwork, Among, DisjointLocks;
    lock := Common(LocksOf(p), LocksOf(q));
    HoldsIsAmong(p, lock);
    HoldsIsAmong(q, lock);
    CommonLock(LocksOf(p), HoldsNetwork(p), LocksOf(q), HoldsNetwork(q));
  }

  lemma AcquiredDisjoint(p: Phase, q: Phase)
    requires Wants(p).Some? && Disjoint(p, q) && !Holds(q, Wants(p).value)
    ensures Disjoint(Acquired(p), q)
  {
    hide Disjoint, Holds, Wants, Acquired;
    var lock := DisjointUnless(Acquired(p), q);
    DisjointMeans(p, q, lock);
    AcquiredHolds(p, lock);
  }

  // ---- steps ------------------------------------------------------------------------------------------

  lemma ThreadKeeps(lang: Language, s: State, t: nat, p: Phase)
    requires Inv(lang, s) && ThreadOk(lang, s.shared, p)
    requires forall u :: u in s.threads && u != t ==> Disjoint(p, s.threads[u])
    ensures Inv(lang, s.(threads := s.threads[t := p]))
  {
    hide DataOk, ThreadOk, Disjoint;
    ExclusiveAfter(s.threads, t, p);
  }

  lemma ArriveKeeps(lang: Language, s: State, t: nat, request: Request, uid: nat)
    requires Inv(lang, s) && Enabled(s, Arrive(t, request, uid))
    ensures Inv(lang, Apply(lang, s, Arrive(t, request, uid)))
  {
    hide DataOk, ThreadOk, Disjoint, FirstPhase;
    FirstPhaseOk(lang, s.shared, request, uid);
    forall u | u in s.threads && u != t
      ensures Disjoint(FirstPhase(request, uid), s.threads[u])
    {
      Lockless(FirstPhase(request, uid), s.threads[u]);
    }
    ThreadKeeps(lang, s, t, FirstPhase(request, uid));
  }

  lemma AcquireKeeps(lang: Language, s: State, t: nat)
    requires Inv(lang, s) && Enabled(s, Acquire(t))
    ensures Inv(lang, Apply(lang, s, Acquire(t)))
  {
    hide DataOk, ThreadOk, Disjoint, Acquired, Holds;
    var p := PhaseOf(s, t);
    AcquiredOk(lang, s.shared, p);
    forall u | u in s.threads && u != t
      ensures Disjoint(Acquired(p), s.threads[u])
    {
      AcquiredDisjoint(p, s.threads[u]);
    }
    ThreadKeeps(lang, s, t, Acquired(p));
  }

  lemma StopKeeps(lang: Language, s: State, t: nat)
    requires Inv(lang, s) && Enabled(s, Stop(t))
    ensures Inv(lang, Apply(lang, s, Stop(t)))
  {
    hide DataOk, Disjoint;
    forall u | u in s.threads && u != t
      ensures Disjoint(Idle, s.threads[u])
    {
      Lockless(Idle, s.threads[u]);
    }
    ThreadKeeps(lang, s, t, Idle);
  }

  lemma RunThreads(lang: Language, s: State, t: nat, d': Shared, p': Phase)
    requires Inv(lang, s) && t in s.threads
    requires SectionOk(lang, LocksOf(s.threads[t]), HoldsNetwork(s.threads[t]), s.shared, (d', p'))
    ensures Inv(lang, State(d', s.threads[t := p']))
  {
    hide DataOk, ThreadOk, Guarantee, Within, LocksOf, HoldsNetwork, Disjoint;
    var p := s.threads[t];
    forall u | u in s.threads && u != t
      ensures ThreadOk(lang, d', s.threads[u]) && Disjoint(p', s.threads[u])
    {
      DisjointParts(p, s.threads[u]);
      Stable(lang, s.shared, d', LocksOf(p), s.threads[u]);
      WithinDisjoint(p, p', s.threads[u]);
    }
    ExclusiveAfter(s.threads, t, p');
  }

  lemma DisjointParts(p: Phase, q: Phase)
    requires Disjoint(p, q)
    ensures DisjointLocks(LocksOf(p), LocksOf(q))
  {
  }

  lemma RunKeeps(lang: Language, s: State, t: nat, c: Choice)
    requires Inv(lang, s) && Lawful(lang) && Enabled(s, Run(t, c))
    ensures Inv(lang, Apply(lang, s, Run(t, c)))
  {
    hide DataOk, Lawful, ThreadOk, SectionOk, Section, LocksOf, HoldsNetwork, Disjoint;
    var r := Section(lang, s.shared, s.threads[t], c);
    EverySectionOk(lang, s.shared, s.threads[t], c);
    RunThreads(lang, s, t, r.0, r.1);
  }

  lemma EnvironmentPreserves(lang: Language, s: State, step: Step)
    requires step.Crash? || step.Exit? || step.Wipe? || step.Spoil? || step.Heal?
    requires DataOk(lang, s.shared) && Enabled(s, step)
    ensures Preserved(lang, Locks(false, None), s.shared, EnvironmentStep(s.shared, step))
  {
    hide DataOk, Preserved;
    var l, d, d' := Locks(false, None), s.shared, EnvironmentStep(s.shared, step);
    if step.Spoil? || step.Heal? {
      Readability(lang, l, d, d'.unreadable);
    } else {
      Shrink(lang, l, d, d');
    }
  }

  lemma EnvironmentKeeps(lang: Language, s: State, step: Step)
    requires step.Crash? || step.Exit? || step.Wipe? || step.Spoil? || step.Heal?
    requires Inv(lang, s) && Enabled(s, step)
    ensures Inv(lang, Apply(lang, s, step))
  {
    hide DataOk, ThreadOk, Guarantee, EnvironmentStep, LocksOf, Exclusive;
    EnvironmentPreserves(lang, s, step);
    forall t | t in s.threads
      ensures ThreadOk(lang, EnvironmentStep(s.shared, step), s.threads[t])
    {
      Stable(lang, s.shared, EnvironmentStep(s.shared, step), Locks(false, None), s.threads[t]);
    }
  }

  lemma StepKeeps(lang: Language, s: State, step: Step)
    requires Inv(lang, s) && Lawful(lang) && Enabled(s, step)
    ensures Inv(lang, Apply(lang, s, step))
  {
    hide Inv, Lawful, Enabled, Apply;
    match step
    case Arrive(t, request, uid) => ArriveKeeps(lang, s, t, request, uid);
    case Acquire(t) => AcquireKeeps(lang, s, t);
    case Run(t, c) => RunKeeps(lang, s, t, c);
    case Stop(t) => StopKeeps(lang, s, t);
    case _ => EnvironmentKeeps(lang, s, step);
  }

  lemma InitOk(lang: Language, s: State)
    requires Init(s)
    ensures Inv(lang, s)
  {
  }

  lemma {:induction false} RunFrom(lang: Language, s: State, steps: seq<Step>)
    requires Inv(lang, s) && Lawful(lang) && Possible(lang, s, steps)
    ensures Inv(lang, End(lang, s, steps))
    decreases |steps|
  {
    hide Inv, Lawful, Enabled, Apply;
    if steps != [] {
      StepKeeps(lang, s, steps[0]);
      RunFrom(lang, Apply(lang, s, steps[0]), steps[1..]);
    }
  }

  ghost predicate Reachable(lang: Language, s: State) {
    exists start, steps :: Init(start) && Possible(lang, start, steps) && End(lang, start, steps) == s
  }

  /** Every state of every run, however the threads interleave and whatever fails, satisfies the invariant. */
  lemma ReachableInv(lang: Language, s: State)
    requires Lawful(lang) && Reachable(lang, s)
    ensures Inv(lang, s)
  {
    hide Inv, Lawful, Enabled, Apply;
    var start, steps :| Init(start) && Possible(lang, start, steps) && End(lang, start, steps) == s;
    InitOk(lang, start);
    RunFrom(lang, start, steps);
  }
}
