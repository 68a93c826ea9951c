/**
  What every answer vouches for, whatever the other threads do meanwhile: the
  success that was asked for, or a refusal for its own reason, to a caller who may
  have it.
 */
module DaemonAnswers {
  import opened Wrappers
  import opened Records
  import opened Daemon
  import opened DaemonInvariant
  import opened DaemonEffects
  import opened DaemonSections
  import opened DaemonSafety
  import opened DaemonGuarantees
  import opened DaemonRuns
  import opened DaemonDisconnect
  import opened DaemonOutcomes
  import opened DaemonCallers
  import opened DaemonRefusals

  /** Only a caller who may use the connection is answered with success. */
  predicate Permitted(request: Request, uid: nat, reply: Reply, d: Shared, d': Shared) {
    match request
    case AddRequest(_) => reply.Id? && reply.id in d'.records ==> MayUse(d'.records[reply.id], uid)
    case SweepRequest(_) => true
    case BootRequest(_) => true
    case _ => reply == Unit && request.id in d.records ==> MayUse(d.records[request.id], uid)
  }

  /** All that an answer vouches for. */
  ghost predicate Vouches(
      lang: Language, request: Request, uid: nat, c: Choice, reply: Reply, d: Shared, p: Phase, d': Shared)
  {
    && Means(lang, request, c, reply, d, p, d')
    && Answers(lang, request, uid, c, reply, d, p, d')
    && Permitted(request, uid, reply, d, d')
  }

  /** A successful edit or removal comes from the last phase of its request. */
  lemma SuccessPhase(lang: Language, request: Request, uid: nat, d: Shared, p: Phase, c: Choice)
    requires Runnable(p) && AtWork(lang, request, d, p) && Vetted(request, uid, d, p)
    requires Section(lang, d, p, c).1 == Done(Unit) && request.RemoveRequest?
    ensures Allowed(d, request.id, uid)
  {
    hide MayUse;
  }

  lemma AnswerPermitted(lang: Language, request: Request, uid: nat, d: Shared, p: Phase, c: Choice)
    requires Runnable(p) && AtWork(lang, request, d, p) && Vetted(request, uid, d, p)
    requires Section(lang, d, p, c).1.Done?
    requires var (d', p') := Section(lang, d, p, c); Means(lang, request, c, p'.reply, d, p, d')
    ensures var (d', p') := Section(lang, d, p, c); Permitted(request, uid, p'.reply, d, d')
  {
    hide Section, ServingRefresh, ServingConnect, ServingDisconnect, ServingReconnect, ServingAdd, ServingRemove;
    hide EditMeans, RefreshMeans, ConnectMeans, DisconnectMeans, RemoveMeans, SweepMeans;
    if request.RemoveRequest? && Section(lang, d, p, c).1.reply == Unit {
      SuccessPhase(lang, request, uid, d, p, c);
    }
  }

  lemma AnsweredAs(lang: Language, s: State, step: Step, t: nat, request: Request, uid: nat)
    requires Inv(lang, s) && Lawful(lang) && Enabled(s, step) && !(step.Arrive? && step.thread == t)
    requires Serving(lang, request, s.shared, PhaseOf(s, t)) && Vetted(request, uid, s.shared, PhaseOf(s, t))
    requires PhaseOf(Apply(lang, s, step), t).Done? && PhaseOf(Apply(lang, s, step), t) != PhaseOf(s, t)
    ensures step.Run? && step.thread == t
    ensures Vouches(lang, request, uid, step.choice, PhaseOf(Apply(lang, s, step), t).reply, s.shared, PhaseOf(s, t),
                    Apply(lang, s, step).shared)
  {
    hide DataOk, ThreadOk, Lawful, Section, AtWork, EnvironmentStep, FirstPhase, Exclusive, Means, Answers, Vetted,
      Permitted, Accepted;
    AnsweringStep(lang, s, step, t, request);
    FinishedStays(lang, s, step, t);
    AnswerByRun(lang, s, step, t);
    assert ThreadOk(lang, s.shared, PhaseOf(s, t));
    SectionAnswers(lang, request, uid, s.shared, PhaseOf(s, t), step.choice);
    AnswerPermitted(lang, request, uid, s.shared, PhaseOf(s, t), step.choice);
  }

  /**
    Whenever a thread stands at an answer, some step of its own since the request
    arrived gave that answer, and that step did what the answer vouches for.
   */
  lemma {:induction false} AnswersMean(lang: Language, start: State, steps: seq<Step>, i: nat, k: nat, t: nat)
    returns (j: nat)
    requires Lawful(lang) && Init(start) && Possible(lang, start, steps) && Serves(steps, i, k, t)
    requires PhaseAt(lang, start, steps, k, t).Done?
    ensures i < j < k && steps[j].Run? && steps[j].thread == t
    ensures PhaseAt(lang, start, steps, j + 1, t) == PhaseAt(lang, start, steps, k, t)
    ensures Vouches(lang, steps[i].request, steps[i].uid, steps[j].choice, PhaseAt(lang, start, steps, k, t).reply,
                    StateAt(lang, start, steps, j).shared, PhaseAt(lang, start, steps, j, t),
                    StateAt(lang, start, steps, j + 1).shared)
    decreases k
  {
    hide Lawful, Inv, Enabled, Apply, Serving, Vouches, Vetted;
    var s, step := StateAt(lang, start, steps, k - 1), steps[k - 1];
    StepAt(lang, start, steps, k - 1);
    ServedAt(lang, start, steps, i, k, t);
    if PhaseAt(lang, start, steps, k - 1, t) == PhaseAt(lang, start, steps, k, t) {
      j := AnswersMean(lang, start, steps, i, k - 1, t);
    } else {
      j := k - 1;
      ServedAt(lang, start, steps, i, k - 1, t);
      InitOk(lang, start);
      InvAt(lang, start, steps, k - 1);
      VettedAt(lang, start, steps, i, k - 1, t);
      AnsweredAs(lang, s, step, t, steps[i].request, steps[i].uid);
    }
  }

  // ---- corollaries ----------------------------------------------------------------------------------

  /** A connect for reconciliation: by the daemon at boot, or by a session agent. */
  predicate Reconciles(request: Request, id: ConnectionId) {
    request == BootRequest(id) || (request.ConnectRequest? && request.id == id && request.reason == Reconciliation)
  }

  /**
    A reconciliation is answered with success only if a step of its own, under
    the connection's lock, found the user's disconnect, or a marker that names a
    helper of the record's current configuration.
   */
  lemma ReconciliationAnswers(
      lang: Language, start: State, steps: seq<Step>, i: nat, k: nat, t: nat, id: ConnectionId) returns (j: nat)
    requires Lawful(lang) && Init(start) && Possible(lang, start, steps) && Serves(steps, i, k, t)
    requires Reconciles(steps[i].request, id) && PhaseAt(lang, start, steps, k, t) == Done(Unit)
    ensures i < j < k
    ensures var d, p := StateAt(lang, start, steps, j).shared, PhaseAt(lang, start, steps, j, t);
      && HoldsConnection(p) == Some(id) && id in d.records
      && (d.records[id].userDisconnected
          || (MarkedCurrent(d, d.records[id]) && LaunchOk(lang, d.launches[d.markers[d.records[id].id].socket])))
  {
    hide Lawful, Enabled, Apply, HoldsConnection, LaunchOk, Answers, Permitted;
    j := AnswersMean(lang, start, steps, i, k, t);
  }

  /** A failing PostUp whose rollback works leaves the interface quiet and nothing stored or marked. */
  lemma RollbackQuiets(lang: Language, s: State, t: nat, c: Choice)
    requires Lawful(lang) && Reachable(lang, s) && PhaseOf(s, t).UpRollback? && c.ok
    ensures var id, s' := PhaseOf(s, t).stored.id, Apply(lang, s, Run(t, c));
      && PhaseOf(s', t) == Done(Failed) && Quiet(s'.shared, id)
      && s'.shared.records == s.shared.records && s'.shared.markers == s.shared.markers
  {
    hide Reachable, Lawful, AddPart, AccessPart, RewritePart, SocketPart, ReplyPart, Exclusive, RecordOk;
    ReachableInv(lang, s);
    assert ThreadOk(lang, s.shared, s.threads[t]);
    StoredRecord(lang, s.shared, PhaseOf(s, t).stored.id);
    RecordNamed(lang, s.shared, PhaseOf(s, t).stored.id);
  }

  /** In a run whose stats work, a successful removal found the connection without a marker or without a socket. */
  lemma RemovalsFindNothingUp(
      lang: Language, start: State, steps: seq<Step>, i: nat, k: nat, t: nat, id: ConnectionId) returns (j: nat)
    requires Lawful(lang) && Init(start) && Possible(lang, start, steps) && Serves(steps, i, k, t) && StatsWork(steps)
    requires steps[i].request.RemoveRequest? && steps[i].request.id == id
    requires PhaseAt(lang, start, steps, k, t) == Done(Unit)
    ensures i < j < k && steps[j].Run? && steps[j].thread == t
    ensures var d, d' := StateAt(lang, start, steps, j).shared, StateAt(lang, start, steps, j + 1).shared;
      && id in d.records && d'.records == d.records - {id}
      && (id !in d.markers || InterfaceName(id) !in d.sockets)
  {
    hide Lawful, Enabled, Apply, Answers, Permitted;
    j := AnswersMean(lang, start, steps, i, k, t);
  }
}
