/**
  A connection the user took down stays down: reconciliation, refreshes,
  reconnects, resubmissions and crashes bring nothing up until a user connects
  or a mode change lands on Automatic. The one exception is a resubmission that
  read the record before the disconnect and writes it afterwards.
 */
module DaemonDisconnect {
  import opened Wrappers
  import opened Records
  import opened Daemon
  import opened DaemonInvariant
  import opened DaemonEffects
  import opened DaemonSections
  import opened DaemonSafety
  import opened DaemonGuarantees
  import opened DaemonRuns

  /** No helper and no socket on the interface of `id`. */
  predicate Quiet(d: Shared, id: ConnectionId) {
    InterfaceName(id) !in d.sockets && !HelperOn(d, InterfaceName(id))
  }

  /** If the connection is still stored it is flagged, and its interface is quiet. */
  predicate Flagged(d: Shared, id: ConnectionId) {
    && id in d.created
    && (id in d.records ==> d.records[id].userDisconnected && Quiet(d, id))
  }

  /** A resubmission that will write back a copy without the flag, although it does not land on Automatic. */
  predicate StaleCopy(p: Phase, id: ConnectionId) {
    (p.AddWantConn? || p.AddHaveConn?) && p.next.id == id && !p.next.userDisconnected && !Lands(p)
  }

  predicate Returns(k: Then) {
    !k.Finish?
  }

  /** Nothing this thread does by itself will bring `id` up or clear its flag. */
  predicate Harmless(p: Phase, id: ConnectionId) {
    && !StaleCopy(p, id)
    && !(p.UpLoad? && p.id == id)
    && !(StoredOf(p).Some? && StoredOf(p).value.id == id)
    && !(p.RefreshWrite? && p.next.id == id && p.wasActive.Some?)
    && !((p.DownLoad? || p.DownWantNetwork? || p.DownRun? || p.DownClear?) && p.id == id && Returns(p.then_))
  }

  ghost predicate AllHarmless(threads: map<nat, Phase>, id: ConnectionId) {
    forall t :: t in threads ==> Harmless(threads[t], id)
  }

  ghost predicate Down(s: State, id: ConnectionId) {
    Flagged(s.shared, id) && (id in s.shared.records ==> AllHarmless(s.threads, id))
  }

  // ---- one section ------------------------------------------------------------------------------

  /** Without the connection's lock a section touches neither its record nor its interface. */
  lemma OthersKeepFlag(lang: Language, l: Locks, d: Shared, d': Shared, id: ConnectionId)
    requires DataOk(lang, d) && Guarantee(l, d, d') && l.connection != Some(id) && Flagged(d, id)
    ensures Flagged(d', id)
  {
    hide HelperOn;
    assert SameRecord(d, d', id);
    if id in d.records {
      DistinctInterfaces(lang, d);
      InterfaceStable(d, d', l, id);
    }
  }

  /** The lock's owner starts no helper and either keeps the flag or removes the record. */
  predicate HoldsBack(d: Shared, d': Shared, id: ConnectionId) {
    && d'.sockets == d.sockets && d'.live == d.live && d'.launches == d.launches
    && (id in d'.records ==> id in d.records && (d.records[id].userDisconnected ==> d'.records[id].userDisconnected))
    && d.created <= d'.created
  }

  lemma HeldBack(d: Shared, d': Shared, id: ConnectionId)
    requires HoldsBack(d, d', id) && Flagged(d, id)
    ensures Flagged(d', id)
  {
  }

  /** Writing back a copy of the record keeps the flag, unless the copy is stale. */
  lemma WriterHoldsBack(lang: Language, d: Shared, p: Phase, c: Choice, id: ConnectionId)
    requires Runnable(p)
    requires p.AddHaveConn? || p.RefreshTouch? || p.RefreshWrite?
    requires HoldsConnection(p) == Some(id)
    requires Harmless(p, id) && !Restores(d, p, id) && ThreadOk(lang, d, p)
    ensures HoldsBack(d, Section(lang, d, p, c).0, id)
  {
    hide NewOk, RecordOk, Apart, SameFixed, SocketPart, ReplyPart, Access;
  }

  lemma FlagHoldsBack(lang: Language, d: Shared, p: Phase, c: Choice, id: ConnectionId)
    requires Runnable(p)
    requires p.ConnectIntent? || p.DisconnectMark?
    requires HoldsConnection(p) == Some(id) && !Restores(d, p, id) && (id in d.records ==> d.records[id].id == id)
    ensures HoldsBack(d, Section(lang, d, p, c).0, id)
  {
  }

  lemma ReaderHoldsBack(lang: Language, d: Shared, p: Phase, c: Choice, id: ConnectionId)
    requires Runnable(p)
    requires p.RefreshLocked? || p.RefreshAuthed? || p.RemoveLocked? || p.DownLoad? || p.DownClear?
      || p.ReconnectLocked? || p.SweepLocked?
    requires HoldsConnection(p) == Some(id)
    ensures HoldsBack(d, Section(lang, d, p, c).0, id)
  {
  }

  /** A harmless owner of the connection's lock is in none of the phases of a connect in progress. */
  lemma HarmlessOwner(p: Phase, id: ConnectionId)
    requires Runnable(p) && HoldsConnection(p) == Some(id) && Harmless(p, id)
    ensures !p.UpLoad? && StoredOf(p).None?
  {
    hide StaleCopy;
  }

  /** The sections of a harmless owner of the connection's lock, other than a teardown. */
  lemma OwnerHoldsBack(lang: Language, d: Shared, p: Phase, c: Choice, id: ConnectionId)
    requires Runnable(p) && HoldsConnection(p) == Some(id) && !p.DownRun?
    requires Harmless(p, id) && Flagged(d, id) && !Restores(d, p, id) && DataOk(lang, d) && ThreadOk(lang, d, p)
    ensures HoldsBack(d, Section(lang, d, p, c).0, id)
  {
    hide DataOk, Flagged, RecordOk, ThreadOk, EditSection, HoldsBack, Harmless, Restores;
    HarmlessOwner(p, id);
    if id in d.records {
      StoredRecord(lang, d, id);
      SameId(lang, d, id);
    }
    if p.AddHaveConn? || p.RefreshTouch? || p.RefreshWrite? {
      WriterHoldsBack(lang, d, p, c, id);
    } else if p.EditLocked? {
      EditHoldsBack(lang, d, p.edit, p.uid, id);
    } else if p.ConnectIntent? || p.DisconnectMark? {
      FlagHoldsBack(lang, d, p, c, id);
    } else {
      ReaderHoldsBack(lang, d, p, c, id);
    }
  }

  lemma EditHoldsBack(lang: Language, d: Shared, edit: Edit, uid: nat, id: ConnectionId)
    requires DataOk(lang, d) && !Restores(d, EditLocked(id, edit, uid), id)
    ensures HoldsBack(d, EditSection(lang, d, id, edit, uid).0, id)
  {
    hide DataOk, RecordOk;
    if id in d.records {
      StoredRecord(lang, d, id);
      SameId(lang, d, id);
    }
  }

  lemma SameId(lang: Language, d: Shared, id: ConnectionId)
    requires id in d.records && RecordOk(lang, d, id, d.records[id])
    ensures d.records[id].id == id
  {
  }

  lemma TeardownKeepsFlag(lang: Language, d: Shared, interface: Interface, c: Choice, id: ConnectionId)
    requires DataOk(lang, d) && Flagged(d, id)
    ensures Flagged(DownEffect(d, interface, c), id)
  {
    hide DataOk;
    var d' := DownEffect(d, interface, c);
    if HelperOn(d', InterfaceName(id)) {
      var n :| n in d'.live && n < |d'.launches| && d'.launches[n].interface == InterfaceName(id);
      assert n in d.live;
    }
  }

  lemma SectionKeepsFlag(lang: Language, d: Shared, p: Phase, c: Choice, id: ConnectionId)
    requires Runnable(p) && DataOk(lang, d) && Lawful(lang) && ThreadOk(lang, d, p)
    requires Harmless(p, id) && Flagged(d, id) && !Restores(d, p, id)
    ensures Flagged(Section(lang, d, p, c).0, id)
  {
    hide DataOk, Lawful, ThreadOk, Harmless, Flagged, Restores, Guarantee, Within, HoldsBack;
    if HoldsConnection(p) != Some(id) {
      EverySectionOk(lang, d, p, c);
      OthersKeepFlag(lang, LocksOf(p), d, Section(lang, d, p, c).0, id);
    } else if p.DownRun? {
      TeardownKeepsFlag(lang, d, InterfaceName(p.id), c, id);
    } else {
      OwnerHoldsBack(lang, d, p, c, id);
      HeldBack(d, Section(lang, d, p, c).0, id);
    }
  }

  /** A resubmission that reads the flagged record now copies the flag, unless its mode change clears it. */
  lemma AddStaysHarmless(lang: Language, d: Shared, a: Add, c: Choice, id: ConnectionId)
    requires DataOk(lang, d) && Flagged(d, id) && id in d.records
    ensures Harmless(AddSection(lang, d, a, c).1, id)
  {
    hide DataOk, HelperOn, NameTaken, RecordOk;
    if c.id in d.records {
      StoredRecord(lang, d, c.id);
      SameId(lang, d, c.id);
    }
  }

  lemma IntentStaysHarmless(lang: Language, d: Shared, p: Phase, c: Choice, id: ConnectionId)
    requires Runnable(p)
    requires p.ConnectIntent? || p.UpLoad?
    requires DataOk(lang, d)
    requires Harmless(p, id) && Flagged(d, id) && id in d.records && !Restores(d, p, id)
    ensures Harmless(Section(lang, d, p, c).1, id)
  {
    hide DataOk, HelperOn, Reparses, RecordOk, Save, Quiet;
    if p.UpLoad? && p.id in d.records {
      StoredRecord(lang, d, p.id);
      SameId(lang, d, p.id);
    }
  }

  lemma ConnectStaysHarmless(lang: Language, d: Shared, p: Phase, c: Choice, id: ConnectionId)
    requires Runnable(p)
    requires p.UpClear? || p.UpCheck? || p.UpSpawn? || p.UpPost? || p.UpRollback? || p.UpSave? || p.UpOk?
    requires Harmless(p, id)
    ensures Harmless(Section(lang, d, p, c).1, id)
  {
    hide HelperOn, ClearDead, DownEffect, Spawn;
  }

  lemma TeardownStaysHarmless(lang: Language, d: Shared, p: Phase, c: Choice, id: ConnectionId)
    requires Runnable(p)
    requires p.DisconnectMark? || p.DownLoad? || p.DownRun? || p.DownClear? || p.ReconnectLocked?
    requires RewritePart(lang, d, p)
    requires Harmless(p, id) && Flagged(d, id) && id in d.records
    ensures Harmless(Section(lang, d, p, c).1, id)
  {
    hide HelperOn, RefreshOk, Save, DownEffect;
  }

  lemma OtherStaysHarmless(lang: Language, d: Shared, p: Phase, c: Choice, id: ConnectionId)
    requires Runnable(p)
    requires p.Done? || p.AddHaveConn? || p.AddCreate? || p.RefreshLocked? || p.RefreshTouch? || p.RefreshAuthed?
      || p.RefreshWrite?
             || p.RemoveIndexed? || p.RemoveLocked? || p.SweepRun? || p.SweepLocked?
    requires Harmless(p, id) && Flagged(d, id) && id in d.records
    ensures Harmless(Section(lang, d, p, c).1, id)
  {
    hide HelperOn, Save, ClearDead, Authorized, Effective, FoundIdentity;
  }

  /** A harmless thread stays harmless. */
  lemma SectionStaysHarmless(lang: Language, d: Shared, p: Phase, c: Choice, id: ConnectionId)
    requires Runnable(p) && DataOk(lang, d) && RewritePart(lang, d, p)
    requires Harmless(p, id) && Flagged(d, id) && id in d.records && !Restores(d, p, id)
    ensures Harmless(Section(lang, d, p, c).1, id)
  {
    hide DataOk, RewritePart, Harmless, Flagged, Restores, AddSection, EditSection;
    if p.AddIndexed? {
      AddStaysHarmless(lang, d, p.add, c, id);
    } else if p.EditLocked? {
      EditEnds(lang, d, p.id, p.edit, p.uid);
      DoneHarmless(EditSection(lang, d, p.id, p.edit, p.uid).1, id);
    } else if p.DisconnectMark? || p.DownLoad? || p.DownRun? || p.DownClear? || p.ReconnectLocked? {
      TeardownStaysHarmless(lang, d, p, c, id);
    } else if p.ConnectIntent? || p.UpLoad? {
      IntentStaysHarmless(lang, d, p, c, id);
    } else if p.UpClear? || p.UpCheck? || p.UpSpawn? || p.UpPost? || p.UpRollback? || p.UpSave? || p.UpOk? {
      ConnectStaysHarmless(lang, d, p, c, id);
    } else {
      OtherStaysHarmless(lang, d, p, c, id);
    }
  }

  lemma DoneHarmless(p: Phase, id: ConnectionId)
    requires p.Done? || p.Idle?
    ensures Harmless(p, id)
  {
  }

  lemma EditEnds(lang: Language, d: Shared, id: ConnectionId, edit: Edit, uid: nat)
    ensures EditSection(lang, d, id, edit, uid).1.Done?
  {
  }

  // ---- steps and runs ---------------------------------------------------------------------------------

  lemma RunStaysDown(lang: Language, s: State, t: nat, c: Choice, id: ConnectionId)
    requires Inv(lang, s) && Lawful(lang) && Enabled(s, Run(t, c)) && Down(s, id)
      && !Restores(s.shared, PhaseOf(s, t), id)
    ensures Down(Apply(lang, s, Run(t, c)), id)
  {
    hide DataOk, Lawful, Section, Harmless, Flagged, Restores, Exclusive, AddPart, AccessPart, RewritePart,
      StoredPart, SocketPart, ReplyPart;
    var p := s.threads[t];
    assert ThreadOk(lang, s.shared, p);
    if id in s.shared.records {
      SectionKeepsFlag(lang, s.shared, p, c, id);
      SectionStaysHarmless(lang, s.shared, p, c, id);
    } else {
      StepGuarantee(lang, s, Run(t, c));
      RemovedStaysFlagged(lang, s, Run(t, c), id);
    }
  }

  lemma RemovedStaysFlagged(lang: Language, s: State, step: Step, id: ConnectionId)
    requires Inv(lang, s) && Lawful(lang) && Enabled(s, step) && Flagged(s.shared, id) && id !in s.shared.records
    ensures Flagged(Apply(lang, s, step).shared, id) && id !in Apply(lang, s, step).shared.records
  {
    hide Inv, Lawful, Enabled, Apply, StepLocks, Guarantee;
    StepGuarantee(lang, s, step);
    StepFacts(StepLocks(s, step), s.shared, Apply(lang, s, step).shared, id);
  }

  lemma AcquiredHarmless(p: Phase, id: ConnectionId)
    requires Wants(p).Some? && Harmless(p, id)
    ensures Harmless(Acquired(p), id)
  {
  }

  lemma FirstHarmless(request: Request, uid: nat, id: ConnectionId)
    ensures Harmless(FirstPhase(request, uid), id)
  {
  }

  lemma OtherStaysDown(lang: Language, s: State, step: Step, id: ConnectionId)
    requires Inv(lang, s) && Lawful(lang) && Enabled(s, step) && Down(s, id) && !step.Run?
    ensures Down(Apply(lang, s, step), id)
  {
    hide DataOk, Lawful, Guarantee, Harmless, Quiet, Exclusive, ThreadsOk, EnvironmentStep, Acquired, FirstPhase,
      Accepted, LockFree;
    StepGuarantee(lang, s, step);
    OthersKeepFlag(lang, Locks(false, None), s.shared, Apply(lang, s, step).shared, id);
    StepFacts(Locks(false, None), s.shared, Apply(lang, s, step).shared, id);
    match step
    case Acquire(t) =>
      if id in s.shared.records && t in s.threads {
        AcquiredHarmless(s.threads[t], id);
      }
    case Arrive(t, request, uid) => FirstHarmless(request, uid, id);
    case Stop(t) => DoneHarmless(Idle, id);
    case _ =>
  }

  lemma {:induction false} StaysDown(lang: Language, s: State, steps: seq<Step>, id: ConnectionId)
    requires Inv(lang, s) && Lawful(lang) && Down(s, id)
    requires Possible(lang, s, steps) && Obeys(lang, Calm(id), s, steps)
    ensures Down(End(lang, s, steps), id)
    decreases |steps|
  {
    hide Inv, Lawful, Down, Enabled, Apply, Restores;
    if steps != [] {
      var step := steps[0];
      if step.Run? {
        RunStaysDown(lang, s, step.thread, step.choice, id);
      } else {
        OtherStaysDown(lang, s, step, id);
      }
      StepKeeps(lang, s, step);
      StaysDown(lang, Apply(lang, s, step), steps[1..], id);
    }
  }

  // ---- the user's disconnect -------------------------------------------------------------------------------

  /** The disconnect of `id` on thread `t` has its flag on disk and its helper gone. */
  predicate DisconnectComplete(s: State, t: nat, id: ConnectionId) {
    && PhaseOf(s, t) == DownClear(id, Finish)
    && id in s.shared.records && s.shared.records[id].userDisconnected
  }

  /** The phases of a disconnect request after its intent was recorded. */
  predicate Disconnecting(p: Phase, id: ConnectionId) {
    p == DownLoad(id, Finish) || p == DownWantNetwork(id, Finish) || p == DownRun(id, Finish)
      || p == DownClear(id, Finish)
  }

  predicate FlagOnDisk(d: Shared, id: ConnectionId) {
    id in d.records && d.records[id].userDisconnected
  }

  /** A user's disconnect records its intent before anything is torn down. */
  lemma IntentRecorded(lang: Language, s: State, t: nat, id: ConnectionId, uid: nat, c: Choice)
    requires Inv(lang, s) && PhaseOf(s, t) == DisconnectMark(id, true, uid) && id in s.shared.records
      && id !in s.shared.unreadable
    ensures var s' := Apply(lang, s, Run(t, c));
      PhaseOf(s', t) == DownLoad(id, Finish) && FlagOnDisk(s'.shared, id) && s'.shared.sockets == s.shared.sockets
        && s'.shared.live == s.shared.live
  {
    hide ThreadsOk, Exclusive, DataOk;
    StoredRecord(lang, s.shared, id);
  }

  /** Thread `t` is in its disconnect in every state of the run. */
  ghost predicate StaysDisconnecting(lang: Language, s: State, steps: seq<Step>, t: nat, id: ConnectionId)
    requires Possible(lang, s, steps)
    decreases |steps|
  {
    Disconnecting(PhaseOf(s, t), id)
      && (steps != [] ==> StaysDisconnecting(lang, Apply(lang, s, steps[0]), steps[1..], t, id))
  }

  lemma OwnTeardownKeepsFlag(lang: Language, d: Shared, p: Phase, c: Choice, id: ConnectionId)
    requires Runnable(p) && Disconnecting(p, id) && FlagOnDisk(d, id)
    ensures FlagOnDisk(Section(lang, d, p, c).0, id)
  {
    hide Section, FlagOnDisk;
    if p.DownRun? {
      RunKeepsFlag(lang, d, p, c, id);
    } else {
      LoadKeepsFlag(lang, d, p, c, id);
    }
  }

  lemma RunKeepsFlag(lang: Language, d: Shared, p: Phase, c: Choice, id: ConnectionId)
    requires p.DownRun? && FlagOnDisk(d, id)
    ensures FlagOnDisk(Section(lang, d, p, c).0, id)
  {
    hide DownEffect, FlagOnDisk;
    DownKeepsFlag(d, p.id, c, id);
  }

  lemma LoadKeepsFlag(lang: Language, d: Shared, p: Phase, c: Choice, id: ConnectionId)
    requires (p.DownLoad? || p.DownClear?) && FlagOnDisk(d, id)
    ensures FlagOnDisk(Section(lang, d, p, c).0, id)
  {
  }

  lemma DownKeepsFlag(d: Shared, own: ConnectionId, c: Choice, id: ConnectionId)
    requires FlagOnDisk(d, id)
    ensures FlagOnDisk(DownEffect(d, InterfaceName(own), c), id)
  {
    hide HelperOn;
  }

  lemma DisconnectingHolds(p: Phase, id: ConnectionId)
    requires Disconnecting(p, id)
    ensures Holds(p, Connection(id)) && !p.Idle?
  {
  }

  lemma StepKeepsRecordedFlag(lang: Language, s: State, step: Step, t: nat, id: ConnectionId)
    requires Inv(lang, s) && Lawful(lang) && Enabled(s, step) && Disconnecting(PhaseOf(s, t), id)
      && FlagOnDisk(s.shared, id)
    ensures FlagOnDisk(Apply(lang, s, step).shared, id)
  {
    hide DataOk, ThreadsOk, Lawful, Section, Disjoint, Guarantee, Disconnecting, FlagOnDisk, HoldsConnection,
      EnvironmentStep;
    DisconnectingHolds(PhaseOf(s, t), id);
    if step.Run? && step.thread == t {
      OwnTeardownKeepsFlag(lang, s.shared, PhaseOf(s, t), step.choice, id);
    } else {
      StepGuarantee(lang, s, step);
      assert StepLocks(s, step).connection != Some(id) by {
        if step.Run? && step.thread in s.threads {
          DisjointMeans(s.threads[t], s.threads[step.thread], Connection(id));
        }
      }
      UnlockedKeepsFlag(lang, s, StepLocks(s, step), Apply(lang, s, step).shared, id);
    }
  }

  lemma UnlockedKeepsFlag(lang: Language, s: State, l: Locks, d': Shared, id: ConnectionId)
    requires Inv(lang, s) && Guarantee(l, s.shared, d') && l.connection != Some(id) && FlagOnDisk(s.shared, id)
    ensures FlagOnDisk(d', id)
  {
    hide Inv;
    RecordCreated(lang, s, id);
    assert SameRecord(s.shared, d', id);
  }

  /** The recorded intent survives everything other threads do until the disconnect is complete. */
  lemma {:induction false} IntentSurvives(lang: Language, s: State, steps: seq<Step>, t: nat, id: ConnectionId)
    requires Inv(lang, s) && Lawful(lang) && Possible(lang, s, steps) && StaysDisconnecting(lang, s, steps, t, id)
    requires FlagOnDisk(s.shared, id)
    ensures FlagOnDisk(End(lang, s, steps).shared, id)
    ensures PhaseOf(End(lang, s, steps), t).DownClear? ==> DisconnectComplete(End(lang, s, steps), t, id)
    decreases |steps|
  {
    hide Inv, Lawful, Enabled, Apply;
    if steps != [] {
      StepKeepsRecordedFlag(lang, s, steps[0], t, id);
      StepKeeps(lang, s, steps[0]);
      IntentSurvives(lang, Apply(lang, s, steps[0]), steps[1..], t, id);
    }
  }

  ghost predicate NoStaleCopy(s: State, id: ConnectionId) {
    forall t :: t in s.threads ==> !StaleCopy(s.threads[t], id)
  }

  /** A thread without the connection's lock is harmless unless it carries a stale copy. */
  lemma UnlockedHarmless(p: Phase, q: Phase, id: ConnectionId)
    requires HoldsConnection(p) == Some(id) && Disjoint(p, q) && !StaleCopy(q, id)
    requires RewriteOf(q).Some? ==> HoldsConnection(q) == Some(RewriteOf(q).value.id)
    ensures Harmless(q, id)
  {
    hide HoldsIndex, HoldsNetwork, StaleCopy;
  }

  lemma RewriteLock(lang: Language, d: Shared, q: Phase)
    requires ThreadOk(lang, d, q)
    ensures RewriteOf(q).Some? ==> HoldsConnection(q) == Some(RewriteOf(q).value.id)
  {
    hide AddPart, AccessPart, StoredPart, SocketPart, ReplyPart, RefreshOk;
  }

  lemma CompleteIsFlagged(lang: Language, s: State, t: nat, id: ConnectionId)
    requires Inv(lang, s) && DisconnectComplete(s, t, id)
    ensures Flagged(s.shared, id)
  {
    hide DataOk, AddPart, AccessPart, RewritePart, StoredPart, ReplyPart;
    assert ThreadOk(lang, s.shared, s.threads[t]);
    StoredRecord(lang, s.shared, id);
  }

  lemma CompleteIsDown(lang: Language, s: State, t: nat, id: ConnectionId)
    requires Inv(lang, s) && DisconnectComplete(s, t, id) && NoStaleCopy(s, id)
    ensures Down(s, id)
  {
    hide DataOk, ThreadOk, Flagged, Harmless, StaleCopy, Disjoint, RewriteOf;
    CompleteIsFlagged(lang, s, t, id);
    forall u | u in s.threads
      ensures Harmless(s.threads[u], id)
    {
      if u == t {
        FinishHarmless(id);
      } else {
        RewriteLock(lang, s.shared, s.threads[u]);
        UnlockedHarmless(s.threads[t], s.threads[u], id);
      }
    }
  }

  lemma FinishHarmless(id: ConnectionId)
    ensures Harmless(DownClear(id, Finish), id)
  {
  }

  /**
    Once a disconnect has its flag on disk and its helper gone, every run keeps
    the connection flagged and its interface quiet, if no stale copy was waiting
    and nothing restores it.
   */
  lemma DisconnectStaysDown(lang: Language, s: State, t: nat, id: ConnectionId, steps: seq<Step>)
    requires Lawful(lang) && Reachable(lang, s) && DisconnectComplete(s, t, id) && NoStaleCopy(s, id)
    requires Possible(lang, s, steps) && Obeys(lang, Calm(id), s, steps)
    ensures var d := End(lang, s, steps).shared;
      id in d.records ==>
        d.records[id].userDisconnected && InterfaceName(id) !in d.sockets && !HelperOn(d, InterfaceName(id))
  {
    hide Lawful, Reachable, Inv, DisconnectComplete, NoStaleCopy, Enabled, Apply, Obeys;
    ReachableInv(lang, s);
    CompleteIsDown(lang, s, t, id);
    StaysDown(lang, s, steps, id);
  }
}
