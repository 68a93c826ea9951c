/**
  Who may do what (authorize_access, src/privileged/dispatch.rs). From its arrival
  on a request goes with its caller; a caller that may not use a connection is
  refused without effect.
 */
module DaemonCallers {
  import opened Wrappers
  import opened Records
  import opened Daemon
  import opened DaemonInvariant
  import opened DaemonEffects
  import opened DaemonSections
  import opened DaemonSafety
  import opened DaemonGuarantees
  import opened DaemonRuns
  import opened DaemonSettings
  import opened DaemonOutcomes

  // ---- gates ------------------------------------------------------------------------------------

  /** Requests that are refused before a worker starts unless their record loads and the caller may use it. */
  predicate Gated(request: Request) {
    request.RefreshRequest? || request.ConnectRequest? || request.DisconnectRequest? || request.ReconnectRequest?
  }

  lemma GateExactly(d: Shared, request: Request, uid: nat)
    requires Gated(request)
    ensures Accepted(d, request, uid) <==>
      request.id in d.records && request.id !in d.unreadable && MayUse(d.records[request.id], uid)
  {
  }

  /** Whoever adds a connection may use it. */
  predicate MayAdd(a: Add, uid: nat) {
    uid == 0 || (!a.global && a.owner == Some(uid))
  }

  lemma AddGate(d: Shared, a: Add, uid: nat)
    requires Accepted(d, AddRequest(a), uid)
    ensures MayAdd(a, uid) && (a.global <==> a.owner.None?) && (a.name.Some? ==> ValidName(a.name.value))
  {
  }

  /** An edit by a caller that may not use the connection is denied and changes nothing. */
  lemma StrangersEditDenied(lang: Language, s: State, t: nat, c: Choice)
    requires PhaseOf(s, t).EditLocked? && PhaseOf(s, t).id in s.shared.records
      && PhaseOf(s, t).id !in s.shared.unreadable
    requires !MayUse(s.shared.records[PhaseOf(s, t).id], PhaseOf(s, t).uid)
    ensures var s' := Apply(lang, s, Run(t, c)); PhaseOf(s', t) == Done(Denied) && s'.shared == s.shared
  {
  }

  /** So is a removal. */
  lemma StrangersRemoveDenied(lang: Language, s: State, t: nat, c: Choice)
    requires PhaseOf(s, t).RemoveIndexed? && PhaseOf(s, t).id in s.shared.records
      && PhaseOf(s, t).id !in s.shared.unreadable
    requires !MayUse(s.shared.records[PhaseOf(s, t).id], PhaseOf(s, t).uid)
    ensures var s' := Apply(lang, s, Run(t, c)); PhaseOf(s', t) == Done(Denied) && s'.shared == s.shared
  {
  }

  // ---- a request goes with its caller ---------------------------------------------------------------

  /** If the connection is still stored, the caller may use it. */
  predicate Allowed(d: Shared, id: ConnectionId, uid: nat) {
    id in d.created && (id in d.records ==> MayUse(d.records[id], uid))
  }

  predicate Vetted(request: Request, uid: nat, d: Shared, p: Phase) {
    match request
    case AddRequest(a) => MayAdd(a, uid)
    case EditRequest(_, _) => p.EditWantConn? || p.EditLocked? ==> p.uid == uid
    case RemoveRequest(id, _) =>
      && (p.RemoveWantIndex? || p.RemoveIndexed? ==> p.uid == uid)
      && (p.RemoveWantConn? || p.RemoveLocked? ==> Allowed(d, id, uid))
    case SweepRequest(_) => true
    case BootRequest(_) => true
    case _ => Allowed(d, request.id, uid)
  }

  lemma FirstVetted(lang: Language, d: Shared, request: Request, uid: nat)
    requires DataOk(lang, d) && Accepted(d, request, uid)
    ensures Vetted(request, uid, d, FirstPhase(request, uid))
  {
    hide DataOk, RecordOk, Accepted, MayUse;
    if Gated(request) {
      GateExactly(d, request, uid);
      StoredRecord(lang, d, request.id);
      RecordInCreated(lang, d, request.id);
    } else if request.AddRequest? {
      AddGate(d, request.add, uid);
    }
  }

  lemma AllowedStays(lang: Language, s: State, step: Step, id: ConnectionId, uid: nat)
    requires Inv(lang, s) && Lawful(lang) && Enabled(s, step) && Allowed(s.shared, id, uid)
    ensures Allowed(Apply(lang, s, step).shared, id, uid)
  {
    hide Inv, Lawful, Enabled, Apply, StepLocks, Guarantee;
    StepGuarantee(lang, s, step);
    StepFacts(StepLocks(s, step), s.shared, Apply(lang, s, step).shared, id);
  }

  lemma AcquiredVetted(lang: Language, request: Request, uid: nat, d: Shared, p: Phase)
    requires Wants(p).Some? && AtWork(lang, request, d, p) && Vetted(request, uid, d, p)
    ensures Vetted(request, uid, d, Acquired(p))
  {
    hide Allowed, Replaced, DenotedBy, Fresh, AsAsked, AsSubmitted;
  }

  /** A removal passes the index lock only for a caller that may use the connection. */
  lemma RemoveVets(lang: Language, d: Shared, p: Phase, c: Choice)
    requires p.RemoveIndexed? && DataOk(lang, d)
    ensures var (d', p') := Section(lang, d, p, c);
      d' == d && (p'.Done? || (p' == RemoveWantConn(p.id, p.form) && Allowed(d, p.id, p.uid)))
  {
    hide DataOk, RecordOk;
    if p.id in d.records {
      StoredRecord(lang, d, p.id);
      RecordInCreated(lang, d, p.id);
    }
  }

  lemma LastSectionsAnswer(lang: Language, d: Shared, p: Phase, c: Choice)
    requires p.EditLocked? || p.RemoveLocked? || p.Done?
    ensures Section(lang, d, p, c).1.Done? || Section(lang, d, p, c).1.Idle?
  {
  }

  /** The caller stays the one the phase goes with, whatever step is taken. */
  lemma StepVetted(lang: Language, s: State, step: Step, t: nat, request: Request, uid: nat)
    requires Inv(lang, s) && Lawful(lang) && Enabled(s, step) && !(step.Arrive? && step.thread == t)
    requires Serving(lang, request, s.shared, PhaseOf(s, t)) && Vetted(request, uid, s.shared, PhaseOf(s, t))
    ensures Vetted(request, uid, Apply(lang, s, step).shared, PhaseOf(Apply(lang, s, step), t))
  {
    hide Lawful, Enabled, Apply, Allowed, AtWork, Section, Acquired, Wants, DataOk, ThreadsOk, Exclusive;
    var d, p := s.shared, PhaseOf(s, t);
    if Subject(request).Some? && Allowed(d, Subject(request).value, uid) {
      AllowedStays(lang, s, step, Subject(request).value, uid);
    }
    PhaseMoves(lang, s, step, t);
    if request.EditRequest? || request.RemoveRequest? {
      OwnerVetted(lang, s, step, t, request, uid);
    }
  }

  lemma OwnerVetted(lang: Language, s: State, step: Step, t: nat, request: Request, uid: nat)
    requires Inv(lang, s) && Lawful(lang) && Enabled(s, step) && !(step.Arrive? && step.thread == t)
    requires request.EditRequest? || request.RemoveRequest?
    requires Serving(lang, request, s.shared, PhaseOf(s, t)) && Vetted(request, uid, s.shared, PhaseOf(s, t))
    ensures Vetted(request, uid, Apply(lang, s, step).shared, PhaseOf(Apply(lang, s, step), t))
  {
    hide Lawful, Allowed, Section, Acquired, DataOk, ThreadsOk, Exclusive, EnvironmentStep, FirstPhase, Accepted,
      LockFree;
    var d, p := s.shared, PhaseOf(s, t);
    if Allowed(d, request.id, uid) {
      AllowedStays(lang, s, step, request.id, uid);
    }
    PhaseMoves(lang, s, step, t);
    if step == Acquire(t) && AtWork(lang, request, d, p) && Wants(p).Some? {
      AcquiredVetted(lang, request, uid, d, p);
    } else if step.Run? && step.thread == t && Runnable(p) {
      if p.RemoveIndexed? {
        RemoveVets(lang, d, p, step.choice);
      } else {
        LastSectionsAnswer(lang, d, p, step.choice);
      }
    }
  }

  /** In every run, from the arrival of a request on. */
  lemma {:induction false} VettedAt(lang: Language, start: State, steps: seq<Step>, i: nat, k: nat, t: nat)
    requires Lawful(lang) && Init(start) && Possible(lang, start, steps) && Serves(steps, i, k, t)
    ensures Vetted(steps[i].request, steps[i].uid, StateAt(lang, start, steps, k).shared,
                   PhaseAt(lang, start, steps, k, t))
    decreases k
  {
    hide Lawful, Inv, Enabled, Apply, Serving, FirstPhase, Vetted;
    var s, step := StateAt(lang, start, steps, k - 1), steps[k - 1];
    StepAt(lang, start, steps, k - 1);
    InitOk(lang, start);
    InvAt(lang, start, steps, k - 1);
    PhaseMoves(lang, s, step, t);
    if k == i + 1 {
      ArrivalVetted(lang, s, step);
    } else {
      VettedAt(lang, start, steps, i, k - 1, t);
      ServedAt(lang, start, steps, i, k - 1, t);
      StepVetted(lang, s, step, t, steps[i].request, steps[i].uid);
    }
  }

  lemma ArrivalVetted(lang: Language, s: State, step: Step)
    requires Inv(lang, s) && Enabled(s, step) && step.Arrive?
    ensures Vetted(step.request, step.uid, Apply(lang, s, step).shared, FirstPhase(step.request, step.uid))
  {
    hide DataOk, ThreadsOk, Exclusive, Vetted, Accepted, FirstPhase;
    FirstVetted(lang, s.shared, step.request, step.uid);
  }
}
