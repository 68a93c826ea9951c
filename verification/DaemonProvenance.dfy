/**
  Who made a record what it is. Every stored and every launched text was written
  by a step of a request whose admin form had been verified. A global connection
  that starts by itself was made to by such a step, exactly if that step was not
  the write of a copy read before the mode was taken back.
 */
module DaemonProvenance {
  import opened Wrappers
  import opened Records
  import opened Daemon
  import opened DaemonInvariant
  import opened DaemonEffects
  import opened DaemonSections
  import opened DaemonSafety
  import opened DaemonGuarantees
  import opened DaemonRuns
  import opened DaemonSettings
  import opened DaemonWitness

  // ---- forms -------------------------------------------------------------------------------------

  /** Phases a request enters only once its form has been verified. */
  predicate Authorizing(p: Phase) {
    p.AddCreate? || RewriteOf(p).Some? || (Lands(p) && p.next.global)
  }

  /** The form a phase still carries. */
  function FormIn(p: Phase): Option<Form> {
    match p
    case AddWantIndex(a) => Some(a.form)
    case AddIndexed(a) => Some(a.form)
    case RefreshWantIndex(_, _, _, form, _) => Some(form)
    case RefreshWantConn(_, _, _, form, _) => Some(form)
    case RefreshLocked(_, _, _, form, _) => Some(form)
    case EditWantConn(_, edit, _) => if edit.SetMode? then Some(edit.form) else None
    case EditLocked(_, edit, _) => if edit.SetMode? then Some(edit.form) else None
    case _ => None
  }

  /** The phase goes with the request: its form is the request's, and verified where the phase needs it. */
  predicate Vouched(request: Request, p: Phase) {
    (FormIn(p).Some? ==> FormIn(p).value == FormOf(request)) && (Authorizing(p) ==> FormOf(request) == Verified)
  }

  lemma FirstVouched(request: Request, uid: nat)
    ensures Vouched(request, FirstPhase(request, uid))
  {
  }

  lemma AcquiredVouched(request: Request, p: Phase)
    requires Wants(p).Some? && Vouched(request, p)
    ensures Vouched(request, Acquired(p))
  {
  }

  lemma AddVouched(lang: Language, d: Shared, a: Add, c: Choice)
    requires DataOk(lang, d)
    ensures var p := AddSection(lang, d, a, c).1;
      (FormIn(p).Some? ==> FormIn(p).value == a.form) && (Authorizing(p) ==> a.form == Verified)
  {
    hide DataOk, NameTaken, RecordOk;
  }

  lemma RefreshVouched(lang: Language, d: Shared, p: Phase, c: Choice)
    requires p.RefreshLocked? || p.RefreshTouch? || p.RefreshAuthed? || p.RefreshWrite?
    ensures var p' := Section(lang, d, p, c).1;
      FormIn(p').None? && (Authorizing(p') ==> FormIn(p) == Some(Verified) || Authorizing(p))
  {
    hide Refreshed, Save, ActiveDebug, FoundIdentity;
  }

  lemma DownVouched(lang: Language, d: Shared, p: Phase, c: Choice)
    requires p.DisconnectMark? || p.DownLoad? || p.DownRun? || p.DownClear? || p.ReconnectLocked?
    ensures var p' := Section(lang, d, p, c).1; FormIn(p').None? && (Authorizing(p') ==> Authorizing(p))
  {
    hide Save, ActiveDebug, DownEffect;
  }

  lemma OtherVouched(lang: Language, d: Shared, p: Phase, c: Choice)
    requires Runnable(p) && !p.AddIndexed? && !p.RefreshLocked? && !p.RefreshTouch? && !p.RefreshAuthed?
      && !p.RefreshWrite?
    requires !p.DisconnectMark? && !p.DownLoad? && !p.DownRun? && !p.DownClear? && !p.ReconnectLocked?
    ensures var p' := Section(lang, d, p, c).1; FormIn(p').None? && !Authorizing(p')
  {
    hide Section;
    if p.ConnectIntent? || p.UpLoad? || StoredOf(p).Some? {
      UpVouched(lang, d, p, c);
    } else {
      LastVouched(lang, d, p, c);
    }
  }

  lemma UpVouched(lang: Language, d: Shared, p: Phase, c: Choice)
    requires Runnable(p) && (p.ConnectIntent? || p.UpLoad? || StoredOf(p).Some?)
    ensures var p' := Section(lang, d, p, c).1; FormIn(p').None? && !Authorizing(p')
  {
    hide Section;
    GoesUp(lang, d, p, c);
  }

  /** A connect in progress stays one, or ends. */
  lemma GoesUp(lang: Language, d: Shared, p: Phase, c: Choice)
    requires Runnable(p) && (p.ConnectIntent? || p.UpLoad? || StoredOf(p).Some?)
    ensures var p' := Section(lang, d, p, c).1; p'.Done? || p'.UpLoad? || StoredOf(p').Some?
  {
    hide Save, DownEffect, ClearDead, Spawn, HelperOn, Reparses;
  }

  lemma LastVouched(lang: Language, d: Shared, p: Phase, c: Choice)
    requires p.Done? || p.AddHaveConn? || p.AddCreate? || p.RemoveIndexed? || p.RemoveLocked? || p.EditLocked?
             || p.SweepRun? || p.SweepLocked?
    ensures var p' := Section(lang, d, p, c).1; FormIn(p').None? && !Authorizing(p')
  {
    hide Save, ActiveDebug, ClearDead, Authorized, AuthReply, Elevates;
  }

  lemma SectionVouched(lang: Language, d: Shared, p: Phase, c: Choice, request: Request)
    requires DataOk(lang, d) && Runnable(p) && Vouched(request, p)
    ensures Vouched(request, Section(lang, d, p, c).1)
  {
    hide DataOk, Section, AddSection, Authorizing, FormOf;
    if p.AddIndexed? {
      AddVouched(lang, d, p.add, c);
      AddIsSection(lang, d, p, c);
    } else if p.RefreshLocked? || p.RefreshTouch? || p.RefreshAuthed? || p.RefreshWrite? {
      RefreshVouched(lang, d, p, c);
    } else if p.DisconnectMark? || p.DownLoad? || p.DownRun? || p.DownClear? || p.ReconnectLocked? {
      DownVouched(lang, d, p, c);
    } else {
      OtherVouched(lang, d, p, c);
    }
  }

  /** In every run each thread's phase goes with the request the thread is serving. */
  lemma {:induction false} VouchedAt(lang: Language, start: State, steps: seq<Step>, k: nat, t: nat)
    requires Lawful(lang) && Init(start) && Possible(lang, start, steps) && k <= |steps|
    requires !PhaseAt(lang, start, steps, k, t).Idle?
    ensures RequestBefore(steps, k, t).Some?
      && Vouched(RequestBefore(steps, k, t).value, PhaseAt(lang, start, steps, k, t))
    decreases k
  {
    hide Lawful, Inv, Enabled, Apply, Vouched, FirstPhase, Acquired, Section, Wants;
    if k > 0 {
      var s, step := StateAt(lang, start, steps, k - 1), steps[k - 1];
      StepAt(lang, start, steps, k - 1);
      PhaseMoves(lang, s, step, t);
      if step.Arrive? && step.thread == t {
        FirstVouched(step.request, step.uid);
      } else {
        IdleStays(lang, s, step, t);
        VouchedAt(lang, start, steps, k - 1, t);
        InitOk(lang, start);
        InvAt(lang, start, steps, k - 1);
        MoveVouched(lang, s, step, t, RequestBefore(steps, k - 1, t).value);
      }
    }
  }

  /** A thread leaves Idle only with a request. */
  lemma IdleStays(lang: Language, s: State, step: Step, t: nat)
    requires Enabled(s, step) && !(step.Arrive? && step.thread == t)
    ensures PhaseOf(s, t).Idle? ==> PhaseOf(Apply(lang, s, step), t).Idle?
  {
    hide Section, FirstPhase, Acquired, EnvironmentStep;
  }

  lemma MoveVouched(lang: Language, s: State, step: Step, t: nat, request: Request)
    requires Inv(lang, s) && Enabled(s, step) && Moves(lang, s, step, t) && Vouched(request, PhaseOf(s, t))
    requires !PhaseOf(Apply(lang, s, step), t).Idle?
    ensures Vouched(request, PhaseOf(Apply(lang, s, step), t))
  {
    hide DataOk, ThreadsOk, Exclusive, Apply, Enabled, Vouched, Section, Acquired;
    var p := PhaseOf(s, t);
    if step == Acquire(t) && Wants(p).Some? {
      AcquiredVouched(request, p);
    } else if step.Run? && step.thread == t && Runnable(p) {
      SectionVouched(lang, s.shared, p, step.choice, request);
    }
  }

  // ---- what is claimed ------------------------------------------------------------------------------

  /** What needs an admin's approval: the text of a record, and that a global connection starts by itself. */
  datatype Claim = HasText(text: string) | StartsByItself

  predicate Stands(d: Shared, id: ConnectionId, claim: Claim) {
    && id in d.records
    && match claim
       case HasText(text) => d.records[id].rawConf == text
       case StartsByItself => d.records[id].global && d.records[id].mode == Automatic
  }

  predicate Comes(d: Shared, d': Shared, id: ConnectionId, claim: Claim) {
    !Stands(d, id, claim) && Stands(d', id, claim)
  }

  /** The section writes only what its request's verified form was asked for. */
  predicate ChecksForm(p: Phase) {
    Authorizing(p) || (p.EditLocked? && p.edit.SetMode? && p.edit.form == Verified)
  }

  /** A copy read while the connection started by itself, written after the mode was taken back. */
  predicate Revives(d: Shared, p: Phase, id: ConnectionId) {
    && p.AddHaveConn? && !p.moves && p.next.id == id && p.next.global && p.next.mode == Automatic
    && id in d.records && d.records[id].mode == Manual
  }

  lemma WriterNeedsForm(lang: Language, d: Shared, p: Phase, c: Choice, id: ConnectionId, claim: Claim)
    requires p.AddHaveConn? || p.RefreshTouch? || p.RefreshWrite?
    requires HoldsConnection(p) == Some(id) && ThreadOk(lang, d, p) && Comes(d, Section(lang, d, p, c).0, id, claim)
    ensures ChecksForm(p) || (claim.StartsByItself? && Revives(d, p, id))
  {
    hide NewOk, RecordOk, Apart, SocketPart, ReplyPart, Access;
  }

  lemma EditNeedsForm(lang: Language, d: Shared, edit: Edit, uid: nat, id: ConnectionId, claim: Claim)
    requires Comes(d, EditSection(lang, d, id, edit, uid).0, id, claim)
    requires id in d.records ==> d.records[id].id == id
    ensures edit.SetMode? && edit.form == Verified
  {
  }

  lemma FlagNeedsNone(lang: Language, d: Shared, p: Phase, c: Choice, id: ConnectionId, claim: Claim)
    requires p.ConnectIntent? || p.DisconnectMark?
    requires HoldsConnection(p) == Some(id) && (id in d.records ==> d.records[id].id == id)
    ensures !Comes(d, Section(lang, d, p, c).0, id, claim)
  {
  }

  lemma ReaderNeedsNone(lang: Language, d: Shared, p: Phase, c: Choice, id: ConnectionId, claim: Claim)
    requires Reads(p)
    ensures !Comes(d, Section(lang, d, p, c).0, id, claim)
  {
    hide Section;
    ReaderRecords(lang, d, p, c);
  }

  /** The owner of the connection's lock brings a claim about only with a verified form, or by reviving. */
  lemma OwnerNeedsForm(lang: Language, d: Shared, p: Phase, c: Choice, id: ConnectionId, claim: Claim)
    requires Runnable(p) && HoldsConnection(p) == Some(id) && DataOk(lang, d) && ThreadOk(lang, d, p)
    requires Comes(d, Section(lang, d, p, c).0, id, claim)
    ensures ChecksForm(p) || (claim.StartsByItself? && Revives(d, p, id))
  {
    hide DataOk, ThreadOk, Section, Comes, RecordOk, Authorizing, Revives;
    if id in d.records {
      StoredRecord(lang, d, id);
      RecordId(lang, d, id);
    }
    if p.AddHaveConn? || p.RefreshTouch? || p.RefreshWrite? {
      WriterNeedsForm(lang, d, p, c, id, claim);
    } else if p.EditLocked? {
      EditIsSection(lang, d, p, c);
      EditNeedsForm(lang, d, p.edit, p.uid, id, claim);
    } else if p.ConnectIntent? || p.DisconnectMark? {
      FlagNeedsNone(lang, d, p, c, id, claim);
    } else {
      ReaderNeedsNone(lang, d, p, c, id, claim);
    }
  }

  /** Every section but the one that creates writes only records that exist. */
  lemma NothingNew(lang: Language, d: Shared, p: Phase, c: Choice, id: ConnectionId)
    requires Runnable(p) && !p.AddCreate? && DataOk(lang, d) && ThreadOk(lang, d, p) && id !in d.records
    ensures id !in Section(lang, d, p, c).0.records
  {
    hide DataOk, ThreadOk, Section;
    if p.AddHaveConn? || p.RefreshTouch? || p.RefreshWrite? {
      WritesOwn(lang, d, p, c, id);
    } else if p.EditLocked? || p.ConnectIntent? || p.DisconnectMark? {
      if p.id in d.records {
        StoredRecord(lang, d, p.id);
        RecordId(lang, d, p.id);
      }
      UpdatesOwn(lang, d, p, c, id);
    } else {
      ReaderRecords(lang, d, p, c);
    }
  }

  lemma WritesOwn(lang: Language, d: Shared, p: Phase, c: Choice, id: ConnectionId)
    requires p.AddHaveConn? || p.RefreshTouch? || p.RefreshWrite?
    requires ThreadOk(lang, d, p) && id !in d.records
    ensures id !in Section(lang, d, p, c).0.records
  {
    hide NewOk, RecordOk, Apart, SameFixed, SocketPart, ReplyPart, Access;
  }

  lemma UpdatesOwn(lang: Language, d: Shared, p: Phase, c: Choice, id: ConnectionId)
    requires p.EditLocked? || p.ConnectIntent? || p.DisconnectMark?
    requires (p.id in d.records ==> d.records[p.id].id == p.id) && id !in d.records
    ensures id !in Section(lang, d, p, c).0.records
  {
  }

  lemma UnlockedBringsNothing(l: Locks, d: Shared, d': Shared, id: ConnectionId, claim: Claim)
    requires Guarantee(l, d, d') && l.connection != Some(id) && id in d.created
    ensures !Comes(d, d', id, claim)
  {
    assert SameRecord(d, d', id);
  }

  /** Without the lock a section brings about nothing for a record that exists; a new one is created. */
  lemma OthersNeedForm(lang: Language, d: Shared, p: Phase, c: Choice, id: ConnectionId, claim: Claim)
    requires Runnable(p) && HoldsConnection(p) != Some(id) && DataOk(lang, d) && Lawful(lang) && ThreadOk(lang, d, p)
    ensures Comes(d, Section(lang, d, p, c).0, id, claim) ==> p.AddCreate?
  {
    hide DataOk, Lawful, ThreadOk, Section, Within, RecordOk, Guarantee;
    if id in d.records {
      EverySectionOk(lang, d, p, c);
      StoredRecord(lang, d, id);
      RecordInCreated(lang, d, id);
      UnlockedBringsNothing(LocksOf(p), d, Section(lang, d, p, c).0, id, claim);
    } else if !p.AddCreate? {
      NothingNew(lang, d, p, c, id);
    }
  }

  lemma StepNeedsForm(lang: Language, s: State, step: Step, id: ConnectionId, claim: Claim)
    requires Inv(lang, s) && Lawful(lang) && Enabled(s, step) && Comes(s.shared, Apply(lang, s, step).shared, id, claim)
    ensures step.Run?
    ensures ChecksForm(PhaseOf(s, step.thread))
      || (claim.StartsByItself? && Revives(s.shared, PhaseOf(s, step.thread), id))
  {
    hide DataOk, Lawful, ThreadOk, Section, ChecksForm, Revives, Exclusive;
    if step.Run? {
      var p := s.threads[step.thread];
      if HoldsConnection(p) == Some(id) {
        OwnerNeedsForm(lang, s.shared, p, step.choice, id, claim);
      } else {
        OthersNeedForm(lang, s.shared, p, step.choice, id, claim);
        CreatingChecks(p);
      }
    }
  }

  lemma CreatingChecks(p: Phase)
    requires p.AddCreate?
    ensures ChecksForm(p)
  {
  }

  // ---- over whole runs --------------------------------------------------------------------------------

  ghost predicate StandsAt(lang: Language, s: State, steps: seq<Step>, k: nat, id: ConnectionId, claim: Claim)
    requires Possible(lang, s, steps) && k <= |steps|
  {
    Stands(StateAt(lang, s, steps, k).shared, id, claim)
  }

  /** Step `k` brought the claim about, and it has stood ever since, up to step `m`. */
  ghost predicate Begins(lang: Language, s: State, steps: seq<Step>, k: nat, m: nat, id: ConnectionId, claim: Claim)
    requires Possible(lang, s, steps) && m <= |steps|
  {
    && k < m && !StandsAt(lang, s, steps, k, id, claim)
    && forall j :: k < j <= m ==> StandsAt(lang, s, steps, j, id, claim)
  }

  /** Step `k` is a step of a request that carried a verified form and whose form was checked before the write. */
  ghost predicate ByForm(lang: Language, s: State, steps: seq<Step>, k: nat)
    requires Possible(lang, s, steps) && k < |steps|
  {
    && steps[k].Run?
    && ChecksForm(PhaseAt(lang, s, steps, k, steps[k].thread))
    && RequestBefore(steps, k, steps[k].thread).Some?
    && FormOf(RequestBefore(steps, k, steps[k].thread).value) == Verified
  }

  ghost predicate ByRevival(lang: Language, s: State, steps: seq<Step>, k: nat, id: ConnectionId)
    requires Possible(lang, s, steps) && k < |steps|
  {
    steps[k].Run? && Revives(StateAt(lang, s, steps, k).shared, PhaseAt(lang, s, steps, k, steps[k].thread), id)
  }

  /** A claim that stands, and did not at the start, began with some step. */
  lemma {:induction false} ClaimBegan(
      lang: Language, s: State, steps: seq<Step>, m: nat, id: ConnectionId, claim: Claim)
    returns (k: nat)
    requires Possible(lang, s, steps) && m <= |steps|
    requires !Stands(s.shared, id, claim) && StandsAt(lang, s, steps, m, id, claim)
    ensures Begins(lang, s, steps, k, m, id, claim)
    decreases m
  {
    hide Enabled, Apply, Stands;
    if StandsAt(lang, s, steps, m - 1, id, claim) {
      k := ClaimBegan(lang, s, steps, m - 1, id, claim);
    } else {
      k := m - 1;
    }
  }

  /** The step that brings a claim about is one with a verified form, exactly if it does not revive. */
  lemma BeginsByForm(lang: Language, start: State, steps: seq<Step>, k: nat, m: nat, id: ConnectionId, claim: Claim)
    requires Lawful(lang) && Init(start) && Possible(lang, start, steps) && m <= |steps|
    requires Begins(lang, start, steps, k, m, id, claim)
    ensures ByForm(lang, start, steps, k) <==> !(claim.StartsByItself? && ByRevival(lang, start, steps, k, id))
  {
    hide Lawful, Inv, Enabled, Apply, Stands, Init, FormIn, FormOf, Authorizing, Revives;
    var s, step := StateAt(lang, start, steps, k), steps[k];
    InitOk(lang, start);
    InvAt(lang, start, steps, k);
    StepAt(lang, start, steps, k);
    assert StandsAt(lang, start, steps, k + 1, id, claim);
    StepNeedsForm(lang, s, step, id, claim);
    RunnerBusy(s, step);
    VouchedAt(lang, start, steps, k, step.thread);
    if ChecksForm(PhaseOf(s, step.thread)) {
      CheckedIsVerified(RequestBefore(steps, k, step.thread).value, PhaseOf(s, step.thread));
      CheckedIsNoRevival(s.shared, PhaseOf(s, step.thread), id);
    }
  }

  lemma RunnerBusy(s: State, step: Step)
    requires step.Run? && Enabled(s, step)
    ensures !PhaseOf(s, step.thread).Idle?
  {
  }

  lemma CheckedIsVerified(request: Request, p: Phase)
    requires Vouched(request, p) && ChecksForm(p)
    ensures FormOf(request) == Verified
  {
  }

  lemma CheckedIsNoRevival(d: Shared, p: Phase, id: ConnectionId)
    ensures ChecksForm(p) ==> !Revives(d, p, id)
  {
  }

  /** Every stored text was written by a step with a verified form, and has been the record's text ever since. */
  lemma TextsAreApproved(lang: Language, start: State, steps: seq<Step>, m: nat, id: ConnectionId)
    returns (k: nat)
    requires Lawful(lang) && Init(start) && Possible(lang, start, steps) && m <= |steps|
    requires id in StateAt(lang, start, steps, m).shared.records
    ensures var text := StateAt(lang, start, steps, m).shared.records[id].rawConf;
      Begins(lang, start, steps, k, m, id, HasText(text)) && ByForm(lang, start, steps, k)
  {
    hide Lawful, Enabled, Apply, Begins, ByForm, ByRevival;
    var claim := HasText(StateAt(lang, start, steps, m).shared.records[id].rawConf);
    k := ClaimBegan(lang, start, steps, m, id, claim);
    BeginsByForm(lang, start, steps, k, m, id, claim);
  }

  /**
    Every global connection that starts by itself has done so ever since some
    step, and that step carried a verified form exactly if it was not a revival.
   */
  lemma AutomaticStartsAreApproved(lang: Language, start: State, steps: seq<Step>, m: nat, id: ConnectionId)
    returns (k: nat)
    requires Lawful(lang) && Init(start) && Possible(lang, start, steps) && m <= |steps|
    requires StandsAt(lang, start, steps, m, id, StartsByItself)
    ensures Begins(lang, start, steps, k, m, id, StartsByItself)
    ensures ByForm(lang, start, steps, k) <==> !ByRevival(lang, start, steps, k, id)
  {
    hide Lawful, Enabled, Apply, Begins, ByForm, ByRevival;
    k := ClaimBegan(lang, start, steps, m, id, StartsByItself);
    BeginsByForm(lang, start, steps, k, m, id, StartsByItself);
  }

  // ---- what was launched ------------------------------------------------------------------------------

  lemma OnlySpawnLaunches(lang: Language, d: Shared, p: Phase, c: Choice)
    requires Runnable(p) && !p.UpSpawn?
    ensures Section(lang, d, p, c).0.launches == d.launches
  {
    hide Section, AddSection;
    if p.AddIndexed? {
      AddIsSection(lang, d, p, c);
      AddLaunchesNone(lang, d, p.add, c);
    } else {
      OthersLaunchNone(lang, d, p, c);
    }
  }

  lemma AddLaunchesNone(lang: Language, d: Shared, a: Add, c: Choice)
    ensures AddSection(lang, d, a, c).0.launches == d.launches
  {
    hide NameTaken, FoundIdentity, NewRecord, Resubmitted, Effective;
  }

  lemma OthersLaunchNone(lang: Language, d: Shared, p: Phase, c: Choice)
    requires Runnable(p) && !p.UpSpawn? && !p.AddIndexed?
    ensures Section(lang, d, p, c).0.launches == d.launches
  {
    hide Section;
    if p.UpLoad? || p.ConnectIntent? || StoredOf(p).Some? {
      UpLaunchesNone(lang, d, p, c);
    } else {
      LastLaunchNone(lang, d, p, c);
    }
  }

  lemma UpLaunchesNone(lang: Language, d: Shared, p: Phase, c: Choice)
    requires Runnable(p) && !p.UpSpawn? && (p.UpLoad? || p.ConnectIntent? || StoredOf(p).Some?)
    ensures Section(lang, d, p, c).0.launches == d.launches
  {
    hide HelperOn, Reparses, Spawn;
  }

  lemma LastLaunchNone(lang: Language, d: Shared, p: Phase, c: Choice)
    requires Runnable(p) && !p.AddIndexed? && !p.UpLoad? && !p.ConnectIntent? && StoredOf(p).None?
    ensures Section(lang, d, p, c).0.launches == d.launches
  {
    hide HelperOn, FoundIdentity, ActiveDebug, Refreshed, Effective, AddSection, Authorized, AuthReply;
  }

  lemma LaunchingStep(lang: Language, s: State, step: Step)
    requires Inv(lang, s) && Lawful(lang) && Enabled(s, step)
    ensures s.shared.launches <= Apply(lang, s, step).shared.launches
    ensures |s.shared.launches| < |Apply(lang, s, step).shared.launches| ==>
      step.Run? && PhaseOf(s, step.thread).UpSpawn? && !HelperOn(s.shared, PhaseOf(s, step.thread).stored.interface)
  {
    hide Inv, Lawful, HelperOn, Section, StepLocks, RecordsGuarantee;
    StepGuarantee(lang, s, step);
    if step.Run? {
      if PhaseOf(s, step.thread).UpSpawn? {
        RefusedSpawn(lang, s.shared, PhaseOf(s, step.thread), step.choice);
      } else {
        OnlySpawnLaunches(lang, s.shared, PhaseOf(s, step.thread), step.choice);
      }
    }
  }

  lemma RefusedSpawn(lang: Language, d: Shared, p: Phase, c: Choice)
    requires p.UpSpawn?
    ensures HelperOn(d, p.stored.interface) ==> Section(lang, d, p, c).0 == d
  {
    hide HelperOn;
  }

  /** The step that made launch `n`. */
  lemma {:induction false} LaunchBegan(lang: Language, start: State, steps: seq<Step>, m: nat, n: nat)
    returns (k: nat)
    requires Lawful(lang) && Init(start) && Possible(lang, start, steps) && m <= |steps|
    requires n < |StateAt(lang, start, steps, m).shared.launches|
    ensures k < m
    ensures |StateAt(lang, start, steps, k).shared.launches| <= n < |StateAt(lang, start, steps, k + 1).shared.launches|
    ensures StateAt(lang, start, steps, k + 1).shared.launches[n] == StateAt(lang, start, steps, m).shared.launches[n]
    decreases m
  {
    hide Lawful, Inv, Enabled, Apply;
    InitOk(lang, start);
    InvAt(lang, start, steps, m - 1);
    StepAt(lang, start, steps, m - 1);
    LaunchingStep(lang, StateAt(lang, start, steps, m - 1), steps[m - 1]);
    if n < |StateAt(lang, start, steps, m - 1).shared.launches| {
      k := LaunchBegan(lang, start, steps, m - 1, n);
    } else {
      k := m - 1;
    }
  }

  /**
    Every helper was launched from the text its record had just then, and that text was written with a verified
    form.
   */
  lemma LaunchesAreApproved(lang: Language, start: State, steps: seq<Step>, n: nat)
    returns (launched: nat, written: nat)
    requires Lawful(lang) && Init(start) && Possible(lang, start, steps)
    requires n < |End(lang, start, steps).shared.launches|
    ensures var launch := End(lang, start, steps).shared.launches[n];
      && launched < |steps| && Begins(lang, start, steps, written, launched, launch.id, HasText(launch.rawConf))
      && ByForm(lang, start, steps, written)
      && |StateAt(lang, start, steps, launched).shared.launches| == n
      && |StateAt(lang, start, steps, launched + 1).shared.launches| == n + 1
      && StateAt(lang, start, steps, launched + 1).shared.launches[n] == launch
  {
    hide Lawful, Inv, Apply, Begins, ByForm, Reachable, HelperOn;
    EndAt(lang, start, steps);
    launched := LaunchBegan(lang, start, steps, |steps|, n);
    var s, step := StateAt(lang, start, steps, launched), steps[launched];
    StepAt(lang, start, steps, launched);
    InitOk(lang, start);
    InvAt(lang, start, steps, launched);
    LaunchingStep(lang, s, step);
    ReachableAt(lang, start, steps, launched);
    LaunchedAsStored(lang, s, step.thread, step.choice);
    written := TextsAreApproved(lang, start, steps, launched, PhaseOf(s, step.thread).stored.id);
  }

  // ---- a revival is reachable -------------------------------------------------------------------------

  /** A global connection that starts by itself; the source path tells two submissions apart. */
  function RootAdd(text: string, source: Option<string>, form: Form): Add {
    Add(text, true, None, Automatic, None, None, false, source, form)
  }

  function RootRecord(lang: Language, text: string, config: Config): Record {
    NewRecord(RootAdd(text, None, Verified), ID, lang.fingerprint(config), config, text)
  }

  /** The store after one such add. */
  function RootStore(lang: Language, text: string, config: Config): Shared {
    EMPTY_STORE.(records := map[ID := RootRecord(lang, text, config)], minted := {ID}, created := {ID})
  }

  lemma RootAddDecides(lang: Language, text: string, config: Config)
    requires lang.parse(text) == Some(config)
    ensures Section(lang, EMPTY_STORE, AddIndexed(RootAdd(text, None, Verified)), Good(ID))
         == (EMPTY_STORE.(minted := {ID}), AddCreate(RootRecord(lang, text, config)))
  {
    assert EMPTY_STORE.minted + {ID} == {ID};
  }

  lemma RootStored(lang: Language, text: string, config: Config)
    requires lang.parse(text) == Some(config)
    ensures Goes(lang, Formless(1), State(EMPTY_STORE, map[]),
                 State(RootStore(lang, text, config), map[0 := Done(Id(ID))]))
  {
    hide Goes, Section;
    var rule, a, d, m := Formless(1), RootAdd(text, None, Verified), EMPTY_STORE, map[];
    var next, d1, s := RootRecord(lang, text, config), EMPTY_STORE.(minted := {ID}), State(EMPTY_STORE, map[]);
    Arrives(lang, rule, d, m, 0, AddRequest(a), 0);
    Acquires(lang, rule, d, m, 0, AddWantIndex(a));
    GoesOn(lang, rule, s, At(d, m, 0, AddWantIndex(a)), At(d, m, 0, AddIndexed(a)));
    RootAddDecides(lang, text, config);
    Runs(lang, rule, d, m, 0, AddIndexed(a), Good(ID));
    GoesOn(lang, rule, s, At(d, m, 0, AddIndexed(a)), At(d1, m, 0, AddCreate(next)));
    Runs(lang, rule, d1, m, 0, AddCreate(next), Good(ID));
    CreateSection(lang, d1, next);
    assert Section(lang, d1, AddCreate(next), Good(ID)).0 == RootStore(lang, text, config);
    GoesOn(lang, rule, s, At(d1, m, 0, AddCreate(next)), At(RootStore(lang, text, config), m, 0, Done(Id(ID))));
  }

  /** The copy of the automatic record that a resubmission without a form writes back. */
  function RootCopy(lang: Language, text: string, config: Config): Record {
    RootRecord(lang, text, config).(sourcePath := Some("x"))
  }

  lemma RootResubmissionDecides(lang: Language, text: string, config: Config)
    requires lang.parse(text) == Some(config)
    ensures Section(lang, RootStore(lang, text, config), AddIndexed(RootAdd(text, Some("x"), Absent)), Good(ID))
         == (RootStore(lang, text, config), AddWantConn(RootCopy(lang, text, config), false))
  {
    hide NameTaken;
    assert FoundIdentity(RootStore(lang, text, config), lang.fingerprint(config), true, None, ID);
  }

  lemma RootResubmissionWaits(lang: Language, text: string, config: Config, m: map<nat, Phase>)
    requires lang.parse(text) == Some(config) && IdleIn(m, 1) && FreeOf(m, 1, Index)
    ensures Goes(lang, Formless(1), State(RootStore(lang, text, config), m),
                 At(RootStore(lang, text, config), m, 1, AddWantConn(RootCopy(lang, text, config), false)))
  {
    hide Goes, Section, FreeOf, RootCopy;
    var rule, a, d := Formless(1), RootAdd(text, Some("x"), Absent), RootStore(lang, text, config);
    var waiting := AddWantConn(RootCopy(lang, text, config), false);
    Arrives(lang, rule, d, m, 1, AddRequest(a), 0);
    Acquires(lang, rule, d, m, 1, AddWantIndex(a));
    GoesOn(lang, rule, State(d, m), At(d, m, 1, AddWantIndex(a)), At(d, m, 1, AddIndexed(a)));
    RootResubmissionDecides(lang, text, config);
    Runs(lang, rule, d, m, 1, AddIndexed(a), Good(ID));
    GoesOn(lang, rule, State(d, m), At(d, m, 1, AddIndexed(a)), At(d, m, 1, waiting));
  }

  /** The store once an owner has taken the automatic start back. */
  function RootManual(lang: Language, text: string, config: Config): Shared {
    Save(RootStore(lang, text, config), RootRecord(lang, text, config).(mode := Manual))
  }

  lemma RootTakenBack(lang: Language, text: string, config: Config, m: map<nat, Phase>)
    requires IdleIn(m, 2) && FreeOf(m, 2, Connection(ID))
    ensures Goes(lang, Formless(1), State(RootStore(lang, text, config), m),
                 At(RootManual(lang, text, config), m, 2, Done(Unit)))
  {
    hide Goes, FreeOf;
    EditRuns(lang, Formless(1), RootStore(lang, text, config), m, 2, ID, SetMode(Manual, Absent), 0);
  }

  /**
    For every language with a usable text: from the empty store a run in which no
    request on thread 1 carries a form leads to where thread 1 makes a global
    connection start by itself although that had been taken back.
   */
  lemma RevivalIsReachable(lang: Language, text: string, config: Config)
    requires lang.parse(text) == Some(config)
    ensures exists s ::
      && Goes(lang, Formless(1), State(EMPTY_STORE, map[]), s) && Revives(s.shared, PhaseOf(s, 1), ID)
      && Comes(s.shared, Apply(lang, s, Run(1, Good(ID))).shared, ID, StartsByItself)
  {
    hide Goes, RootCopy;
    CopyFacts(lang, text, config);
    RevivalReached(lang, text, config);
    var m := map[0 := Done(Id(ID)), 1 := AddHaveConn(RootCopy(lang, text, config), false), 2 := Done(Unit)];
    var s := State(RootManual(lang, text, config), m);
    assert Revives(s.shared, PhaseOf(s, 1), ID);
  }

  /** Thread 1 holds its copy and the lock, and the mode has been taken back. */
  lemma RevivalReached(lang: Language, text: string, config: Config)
    requires lang.parse(text) == Some(config)
    ensures var m := map[0 := Done(Id(ID)), 1 := AddHaveConn(RootCopy(lang, text, config), false), 2 := Done(Unit)];
      Goes(lang, Formless(1), State(EMPTY_STORE, map[]), State(RootManual(lang, text, config), m))
  {
    hide Goes, RootCopy, RootStore, RootManual;
    var rule, start, m := Formless(1), State(EMPTY_STORE, map[]), map[0 := Done(Id(ID))];
    var d, d', copy := RootStore(lang, text, config), RootManual(lang, text, config), RootCopy(lang, text, config);
    var m1 := m[1 := AddWantConn(copy, false)];
    var m2 := m1[2 := Done(Unit)];
    CopyFacts(lang, text, config);
    RootStored(lang, text, config);
    RootResubmissionWaits(lang, text, config, m);
    GoesOn(lang, rule, start, State(d, m), State(d, m1));
    RootTakenBack(lang, text, config, m1);
    GoesOn(lang, rule, start, State(d, m1), State(d', m2));
    MapSame(m2, 1);
    Acquires(lang, rule, d', m2, 1, AddWantConn(copy, false));
    GoesOn(lang, rule, start, State(d', m2), At(d', m2, 1, AddHaveConn(copy, false)));
    assert m2[1 := AddHaveConn(copy, false)] == map[0 := Done(Id(ID)), 1 := AddHaveConn(copy, false), 2 := Done(Unit)];
  }

  lemma CopyFacts(lang: Language, text: string, config: Config)
    ensures var copy := RootCopy(lang, text, config); copy.id == ID && copy.global && copy.mode == Automatic
  {
  }
}
