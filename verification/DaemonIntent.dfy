/**
  The recorded intent of a user's disconnect, whatever becomes of the teardown:
  it may complete, fail half way, time out, or the daemon may die. From the write
  of the flag on, every run in which nothing restores the connection keeps it,
  exactly if no resubmission was waiting with a copy from before.
 */
module DaemonIntent {
  import opened Wrappers
  import opened Records
  import opened Daemon
  import opened DaemonInvariant
  import opened DaemonEffects
  import opened DaemonSections
  import opened DaemonSafety
  import opened DaemonGuarantees
  import opened DaemonRuns
  import opened DaemonDisconnect
  import opened DaemonWitness
  import opened DaemonSettings

  /** If the connection is still stored, it is flagged. */
  predicate Marked(d: Shared, id: ConnectionId) {
    id in d.created && (id in d.records ==> d.records[id].userDisconnected)
  }

  ghost predicate Intended(s: State, id: ConnectionId) {
    Marked(s.shared, id) && (id in s.shared.records ==> NoStaleCopy(s, id))
  }

  // ---- one section ------------------------------------------------------------------------------

  lemma OthersKeepMark(l: Locks, d: Shared, d': Shared, id: ConnectionId)
    requires Guarantee(l, d, d') && l.connection != Some(id) && Marked(d, id)
    ensures Marked(d', id)
  {
    assert SameRecord(d, d', id);
  }

  lemma WriterKeepsMark(lang: Language, d: Shared, p: Phase, c: Choice, id: ConnectionId)
    requires p.AddHaveConn? || p.RefreshTouch? || p.RefreshWrite?
    requires HoldsConnection(p) == Some(id) && ThreadOk(lang, d, p) && Marked(d, id)
    requires !StaleCopy(p, id) && !Restores(d, p, id)
    ensures Marked(Section(lang, d, p, c).0, id)
  {
    hide NewOk, RecordOk, Apart, SameFixed, SocketPart, ReplyPart, Access;
  }

  lemma HeldBackMarks(d: Shared, d': Shared, id: ConnectionId)
    requires HoldsBack(d, d', id) && Marked(d, id)
    ensures Marked(d', id)
  {
  }

  lemma ShrunkMarks(d: Shared, d': Shared, p: Phase, id: ConnectionId)
    requires Marked(d, id) && d'.created == d.created
    requires d'.records == d.records || (p.RemoveLocked? && d'.records == d.records - {p.id})
    ensures Marked(d', id)
  {
  }

  lemma OwnerKeepsMark(lang: Language, d: Shared, p: Phase, c: Choice, id: ConnectionId)
    requires Runnable(p) && HoldsConnection(p) == Some(id) && DataOk(lang, d) && ThreadOk(lang, d, p)
    requires Marked(d, id) && !StaleCopy(p, id) && !Restores(d, p, id)
    ensures Marked(Section(lang, d, p, c).0, id)
  {
    hide DataOk, ThreadOk, Section, Marked, StaleCopy, Restores, RecordOk, HoldsBack;
    if id in d.records {
      StoredRecord(lang, d, id);
      RecordId(lang, d, id);
    }
    if p.AddHaveConn? || p.RefreshTouch? || p.RefreshWrite? {
      WriterKeepsMark(lang, d, p, c, id);
    } else if p.EditLocked? {
      EditHoldsBack(lang, d, p.edit, p.uid, id);
      EditIsSection(lang, d, p, c);
      HeldBackMarks(d, Section(lang, d, p, c).0, id);
    } else if p.ConnectIntent? || p.DisconnectMark? {
      FlagHoldsBack(lang, d, p, c, id);
      HeldBackMarks(d, Section(lang, d, p, c).0, id);
    } else {
      ReaderRecords(lang, d, p, c);
      ShrunkMarks(d, Section(lang, d, p, c).0, p, id);
    }
  }

  lemma SectionKeepsMark(lang: Language, d: Shared, p: Phase, c: Choice, id: ConnectionId)
    requires Runnable(p) && DataOk(lang, d) && Lawful(lang) && ThreadOk(lang, d, p)
    requires Marked(d, id) && !StaleCopy(p, id) && !Restores(d, p, id)
    ensures Marked(Section(lang, d, p, c).0, id)
  {
    hide DataOk, Lawful, ThreadOk, Section, Marked, StaleCopy, Restores, Guarantee, Within;
    if HoldsConnection(p) != Some(id) {
      EverySectionOk(lang, d, p, c);
      OthersKeepMark(LocksOf(p), d, Section(lang, d, p, c).0, id);
    } else {
      OwnerKeepsMark(lang, d, p, c, id);
    }
  }

  /** A resubmission that reads the flagged record now copies the flag, unless its mode change clears it. */
  lemma AddCopiesMark(lang: Language, d: Shared, a: Add, c: Choice, id: ConnectionId)
    requires DataOk(lang, d) && Marked(d, id) && id in d.records
    ensures !StaleCopy(AddSection(lang, d, a, c).1, id)
  {
    hide DataOk, NameTaken, RecordOk;
    if c.id in d.records {
      StoredRecord(lang, d, c.id);
      RecordId(lang, d, c.id);
    }
  }

  lemma SectionLeavesNoCopy(lang: Language, d: Shared, p: Phase, c: Choice, id: ConnectionId)
    requires Runnable(p) && DataOk(lang, d) && Marked(d, id) && id in d.records
    ensures !StaleCopy(Section(lang, d, p, c).1, id)
  {
    hide DataOk, Marked, Section, AddSection;
    if p.AddIndexed? {
      AddIsSection(lang, d, p, c);
      AddCopiesMark(lang, d, p.add, c, id);
    } else {
      OtherPhaseAgrees(lang, d, p, c);
    }
  }

  // ---- steps and runs -----------------------------------------------------------------------------

  lemma RunKeepsIntent(lang: Language, s: State, t: nat, c: Choice, id: ConnectionId)
    requires Inv(lang, s) && Lawful(lang) && Enabled(s, Run(t, c)) && Intended(s, id)
    requires !Restores(s.shared, PhaseOf(s, t), id)
    ensures Intended(Apply(lang, s, Run(t, c)), id)
  {
    hide DataOk, Lawful, Section, Marked, Exclusive, ThreadOk, StaleCopy, Restores;
    if id in s.shared.records {
      SectionKeepsMark(lang, s.shared, s.threads[t], c, id);
      SectionLeavesNoCopy(lang, s.shared, s.threads[t], c, id);
    } else {
      RemovedStaysMarked(lang, s, Run(t, c), id);
    }
  }

  lemma RemovedStaysMarked(lang: Language, s: State, step: Step, id: ConnectionId)
    requires Inv(lang, s) && Lawful(lang) && Enabled(s, step) && Marked(s.shared, id) && id !in s.shared.records
    ensures Intended(Apply(lang, s, step), id)
  {
    hide Inv, Lawful, Enabled, Apply, StepLocks, Guarantee;
    StepGuarantee(lang, s, step);
    StepFacts(StepLocks(s, step), s.shared, Apply(lang, s, step).shared, id);
  }

  lemma AcquiredNoCopy(p: Phase, id: ConnectionId)
    requires Wants(p).Some? && !StaleCopy(p, id)
    ensures !StaleCopy(Acquired(p), id)
  {
  }

  lemma FirstNoCopy(request: Request, uid: nat, id: ConnectionId)
    ensures !StaleCopy(FirstPhase(request, uid), id) && !StaleCopy(Idle, id)
  {
  }

  lemma OtherStepKeepsIntent(lang: Language, s: State, step: Step, id: ConnectionId)
    requires Inv(lang, s) && Lawful(lang) && Enabled(s, step) && Intended(s, id) && !step.Run?
    ensures Intended(Apply(lang, s, step), id)
  {
    hide DataOk, Lawful, Guarantee, StaleCopy, Marked, Exclusive, ThreadsOk, EnvironmentStep, Acquired, FirstPhase,
      Daemon.Accepted, LockFree;
    StepGuarantee(lang, s, step);
    OthersKeepMark(Locks(false, None), s.shared, Apply(lang, s, step).shared, id);
    StepFacts(Locks(false, None), s.shared, Apply(lang, s, step).shared, id);
    MarkedIsCreated(s.shared, id);
    match step
    case Acquire(t) =>
      if id in s.shared.records && t in s.threads {
        AcquiredNoCopy(s.threads[t], id);
      }
    case Arrive(t, request, uid) => FirstNoCopy(request, uid, id);
    case Stop(t) => FirstNoCopy(SweepRequest(id), 0, id);
    case _ =>
  }

  lemma MarkedIsCreated(d: Shared, id: ConnectionId)
    requires Marked(d, id)
    ensures id in d.created
  {
  }

  /** A flag that no stale copy threatens stays in every run in which nothing restores the connection. */
  lemma {:induction false} IntentStands(lang: Language, s: State, steps: seq<Step>, id: ConnectionId)
    requires Inv(lang, s) && Lawful(lang) && Intended(s, id)
    requires Possible(lang, s, steps) && Obeys(lang, Calm(id), s, steps)
    ensures Intended(End(lang, s, steps), id)
    decreases |steps|
  {
    hide Inv, Lawful, Intended, Enabled, Apply, Restores;
    if steps != [] {
      var step := steps[0];
      if step.Run? {
        RunKeepsIntent(lang, s, step.thread, step.choice, id);
      } else {
        OtherStepKeepsIntent(lang, s, step, id);
      }
      StepKeeps(lang, s, step);
      IntentStands(lang, Apply(lang, s, step), steps[1..], id);
    }
  }

  // ---- the user's disconnect ------------------------------------------------------------------------------

  /** Thread `t` has the connection's lock and is about to record a user's disconnect. */
  predicate Recording(s: State, t: nat, id: ConnectionId) {
    && PhaseOf(s, t).DisconnectMark? && PhaseOf(s, t).id == id && PhaseOf(s, t).byUser
    && id in s.shared.records && id !in s.shared.unreadable
  }

  /** The state once the flag is on disk. */
  ghost function Recorded(lang: Language, s: State, t: nat, c: Choice): State
    requires PhaseOf(s, t).DisconnectMark?
  {
    Apply(lang, s, Run(t, c))
  }

  lemma RecordedFacts(lang: Language, s: State, t: nat, c: Choice, id: ConnectionId)
    requires Inv(lang, s) && Recording(s, t, id)
    ensures var after := Recorded(lang, s, t, c);
      && FlagOnDisk(after.shared, id) && Marked(after.shared, id)
      && after.threads == s.threads[t := DownLoad(id, Finish)]
  {
    hide DataOk, ThreadsOk, Exclusive, RecordOk;
    StoredRecord(lang, s.shared, id);
    RecordId(lang, s.shared, id);
    RecordInCreated(lang, s.shared, id);
  }

  /** A stale copy is still waiting for the lock that the disconnect holds, and gets it when the thread stops. */
  lemma CopyGetsLock(lang: Language, s: State, t: nat, u: nat, id: ConnectionId)
    requires Inv(lang, s) && t in s.threads && HoldsConnection(s.threads[t]) == Some(id)
    requires u in s.threads && StaleCopy(s.threads[u], id) && !StaleCopy(s.threads[t], id)
    ensures u != t && s.threads[u].AddWantConn? && !Lands(s.threads[u])
    ensures FreeOf(s.threads[t := Idle], u, Connection(id))
  {
    hide DataOk, ThreadsOk, Disjoint;
    forall w | w in s.threads && w != t
      ensures !Holds(s.threads[w], Connection(id))
    {
      DisjointMeans(s.threads[t], s.threads[w], Connection(id));
    }
  }

  /** From there a run in which nothing restores the connection clears the flag. */
  lemma CopyClearsFlag(lang: Language, s: State, t: nat, u: nat, id: ConnectionId)
    requires Inv(lang, s) && t in s.threads && HoldsConnection(s.threads[t]) == Some(id)
    requires u in s.threads && StaleCopy(s.threads[u], id) && !StaleCopy(s.threads[t], id)
    ensures exists s' ::
      Goes(lang, Calm(id), s, s') && id in s'.shared.records && !s'.shared.records[id].userDisconnected
  {
    hide Inv, Goes, FreeOf, Save;
    CopyGetsLock(lang, s, t, u, id);
    var m, next := s.threads[t := Idle], s.threads[u].next;
    GoesStep(lang, Calm(id), s, Stop(t));
    StaleCopyWritten(lang, s.shared, m, u, id, next);
    GoesOn(lang, Calm(id), s, State(s.shared, m), At(Save(s.shared, next), m, u, Done(Id(id))));
    SavedIs(s.shared, next);
  }

  lemma SavedIs(d: Shared, next: Record)
    ensures next.id in Save(d, next).records && Save(d, next).records[next.id] == next
  {
  }

  /**
    From the moment the flag is on disk, and however the teardown ends, it stays in
    every run in which nothing restores the connection, exactly if no resubmission
    is waiting with a copy from before.
   */
  lemma MarkedExactly(lang: Language, s: State, t: nat, c: Choice, id: ConnectionId)
    requires Lawful(lang) && Reachable(lang, s) && Recording(s, t, id)
    ensures var after := Recorded(lang, s, t, c);
      (forall s' :: Goes(lang, Calm(id), after, s') && id in s'.shared.records
                ==> s'.shared.records[id].userDisconnected)
      <==> NoStaleCopy(after, id)
  {
    hide Reachable, Lawful, Inv, Possible, Obeys, End, Section, StaleCopy;
    ReachableInv(lang, s);
    RecordedFacts(lang, s, t, c, id);
    RunKeeps(lang, s, t, c);
    var after := Recorded(lang, s, t, c);
    if NoStaleCopy(after, id) {
      forall s' | Goes(lang, Calm(id), after, s') && id in s'.shared.records
        ensures s'.shared.records[id].userDisconnected
      {
        var steps :| Possible(lang, after, steps) && Obeys(lang, Calm(id), after, steps)
          && End(lang, after, steps) == s';
        IntentStands(lang, after, steps, id);
      }
    } else {
      var u :| u in after.threads && StaleCopy(after.threads[u], id);
      LoadIsNoCopy(id);
      CopyClearsFlag(lang, after, t, u, id);
    }
  }

  lemma LoadIsNoCopy(id: ConnectionId)
    ensures !StaleCopy(DownLoad(id, Finish), id)
  {
  }
}
