/**
  The settings an owner changes while other requests run: start mode, DNS switch
  and bypass links. An acknowledged setting survives every run in which nobody
  asks for another value, exactly if no resubmission was waiting to write back a
  copy of the record it had read before.
 */
module DaemonSettings {
  import opened Wrappers
  import opened BypassLinks
  import opened Records
  import opened Daemon
  import opened DaemonInvariant
  import opened DaemonEffects
  import opened DaemonSections
  import opened DaemonSafety
  import opened DaemonGuarantees
  import opened DaemonRuns
  import opened DaemonWitness

  datatype Value = ModeIs(mode: StartMode) | DnsIs(enabled: bool) | LinksAre(links: seq<BypassLink>)

  function ValueOf(r: Record, setting: Setting): Value {
    match setting
    case Mode => ModeIs(r.mode)
    case Dns => DnsIs(r.dnsDynamicStore)
    case Links => LinksAre(r.links)
  }

  function SettingOf(edit: Edit): Setting {
    match edit
    case SetMode(_, _) => Mode
    case SetDns(_) => Dns
    case SetLinks(_) => Links
  }

  /** A resubmission that will write back a value it was not asked to write. */
  predicate Disagrees(p: Phase, id: ConnectionId, setting: Setting, v: Value) {
    && (p.AddWantConn? || p.AddHaveConn?) && p.next.id == id
    && !(setting.Mode? && p.moves) && ValueOf(p.next, setting) != v
  }

  ghost predicate AllAgree(threads: map<nat, Phase>, id: ConnectionId, setting: Setting, v: Value) {
    forall t :: t in threads ==> !Disagrees(threads[t], id, setting, v)
  }

  /** If the connection is still stored, its setting has this value. */
  predicate Stored(d: Shared, id: ConnectionId, setting: Setting, v: Value) {
    id in d.created && (id in d.records ==> ValueOf(d.records[id], setting) == v)
  }

  ghost predicate Kept(s: State, id: ConnectionId, setting: Setting, v: Value) {
    Stored(s.shared, id, setting, v) && (id in s.shared.records ==> AllAgree(s.threads, id, setting, v))
  }

  // ---- one section ------------------------------------------------------------------------------

  lemma OthersKeep(l: Locks, d: Shared, d': Shared, id: ConnectionId, setting: Setting, v: Value)
    requires Guarantee(l, d, d') && l.connection != Some(id) && Stored(d, id, setting, v)
    ensures Stored(d', id, setting, v)
  {
    assert SameRecord(d, d', id);
  }

  /** Writers of a whole record: its own request's copy, or a refresh. */
  lemma WriterKeeps(lang: Language, d: Shared, p: Phase, c: Choice, id: ConnectionId, setting: Setting, v: Value)
    requires p.AddHaveConn? || p.RefreshTouch? || p.RefreshWrite?
    requires HoldsConnection(p) == Some(id) && ThreadOk(lang, d, p) && Stored(d, id, setting, v)
    requires !Disagrees(p, id, setting, v) && !Sets(p, id, setting)
    ensures Stored(Section(lang, d, p, c).0, id, setting, v)
  {
    hide NewOk, RecordOk, Apart, SameFixed, SocketPart, ReplyPart, Access;
  }

  lemma EditKeeps(lang: Language, d: Shared, edit: Edit, uid: nat, id: ConnectionId, setting: Setting, v: Value)
    requires Stored(d, id, setting, v) && !Sets(EditLocked(id, edit, uid), id, setting)
    requires id in d.records ==> d.records[id].id == id
    ensures Stored(EditSection(lang, d, id, edit, uid).0, id, setting, v)
  {
  }

  lemma FlagKeeps(lang: Language, d: Shared, p: Phase, c: Choice, id: ConnectionId, setting: Setting, v: Value)
    requires p.ConnectIntent? || p.DisconnectMark?
    requires HoldsConnection(p) == Some(id) && Stored(d, id, setting, v)
    requires id in d.records ==> d.records[id].id == id
    ensures Stored(Section(lang, d, p, c).0, id, setting, v)
  {
  }

  /** The sections that write no record, or only remove one. */
  predicate Reads(p: Phase) {
    && Runnable(p) && !p.AddHaveConn? && !p.RefreshTouch? && !p.RefreshWrite? && !p.EditLocked? && !p.ConnectIntent?
    && !p.DisconnectMark? && !p.AddCreate?
  }

  lemma ReaderRecords(lang: Language, d: Shared, p: Phase, c: Choice)
    requires Reads(p)
    ensures var d' := Section(lang, d, p, c).0;
      d'.created == d.created && (d'.records == d.records || (p.RemoveLocked? && d'.records == d.records - {p.id}))
  {
    hide Section, AddSection;
    if p.AddIndexed? {
      AddIsSection(lang, d, p, c);
      AddRecords(lang, d, p.add, c);
    } else {
      OtherRecords(lang, d, p, c);
    }
  }

  lemma AddRecords(lang: Language, d: Shared, a: Add, c: Choice)
    ensures AddSection(lang, d, a, c).0.records == d.records && AddSection(lang, d, a, c).0.created == d.created
  {
    hide NameTaken, FoundIdentity, NewRecord, Resubmitted, Effective;
  }

  lemma OtherRecords(lang: Language, d: Shared, p: Phase, c: Choice)
    requires Reads(p) && !p.AddIndexed?
    ensures var d' := Section(lang, d, p, c).0;
      d'.created == d.created && (d'.records == d.records || (p.RemoveLocked? && d'.records == d.records - {p.id}))
  {
    hide HelperOn, Reparses, Refreshed, AddSection, FoundIdentity, Effective, Authorized;
  }

  lemma SectionKeepsSetting(
      lang: Language, d: Shared, p: Phase, c: Choice, id: ConnectionId, setting: Setting, v: Value)
    requires Runnable(p) && DataOk(lang, d) && Lawful(lang) && ThreadOk(lang, d, p)
    requires Stored(d, id, setting, v) && !Disagrees(p, id, setting, v) && !Sets(p, id, setting)
    ensures Stored(Section(lang, d, p, c).0, id, setting, v)
  {
    hide DataOk, Lawful, ThreadOk, Section, Stored, Disagrees, Sets, Guarantee, Within, RecordOk;
    if HoldsConnection(p) != Some(id) {
      EverySectionOk(lang, d, p, c);
      OthersKeep(LocksOf(p), d, Section(lang, d, p, c).0, id, setting, v);
    } else {
      if id in d.records {
        StoredRecord(lang, d, id);
        RecordId(lang, d, id);
      }
      if p.AddHaveConn? || p.RefreshTouch? || p.RefreshWrite? {
        WriterKeeps(lang, d, p, c, id, setting, v);
      } else if p.EditLocked? {
        EditKeeps(lang, d, p.edit, p.uid, id, setting, v);
        EditIsSection(lang, d, p, c);
      } else if p.ConnectIntent? || p.DisconnectMark? {
        FlagKeeps(lang, d, p, c, id, setting, v);
      } else {
        ReaderRecords(lang, d, p, c);
        ShrunkKeeps(d, Section(lang, d, p, c).0, p, id, setting, v);
      }
    }
  }

  lemma ShrunkKeeps(d: Shared, d': Shared, p: Phase, id: ConnectionId, setting: Setting, v: Value)
    requires Stored(d, id, setting, v) && d'.created == d.created
    requires d'.records == d.records || (p.RemoveLocked? && d'.records == d.records - {p.id})
    ensures Stored(d', id, setting, v)
  {
  }

  lemma RecordId(lang: Language, d: Shared, id: ConnectionId)
    requires id in d.records && RecordOk(lang, d, id, d.records[id])
    ensures d.records[id].id == id
  {
  }

  /** A resubmission that reads the record now copies the value, unless it was asked for another mode. */
  lemma CopyAgrees(lang: Language, d: Shared, a: Add, c: Choice, id: ConnectionId, setting: Setting, v: Value)
    requires DataOk(lang, d) && Stored(d, id, setting, v) && id in d.records
    ensures !Disagrees(AddSection(lang, d, a, c).1, id, setting, v)
  {
    hide DataOk, NameTaken, RecordOk;
    if c.id in d.records {
      StoredRecord(lang, d, c.id);
      RecordId(lang, d, c.id);
    }
  }

  lemma OtherPhaseAgrees(lang: Language, d: Shared, p: Phase, c: Choice)
    requires Runnable(p) && !p.AddIndexed?
    ensures !Section(lang, d, p, c).1.AddWantConn? && !Section(lang, d, p, c).1.AddHaveConn?
  {
    hide NameTaken, HelperOn, Reparses, Save, ClearDead, DownEffect, Spawn, BringDown, Unlink, ActiveDebug,
      FoundIdentity;
    hide Refreshed, Effective;
  }

  lemma SectionAgrees(lang: Language, d: Shared, p: Phase, c: Choice, id: ConnectionId, setting: Setting, v: Value)
    requires Runnable(p) && DataOk(lang, d) && Stored(d, id, setting, v) && id in d.records
    ensures !Disagrees(Section(lang, d, p, c).1, id, setting, v)
  {
    hide DataOk, Stored, AddSection;
    if p.AddIndexed? {
      CopyAgrees(lang, d, p.add, c, id, setting, v);
    } else {
      OtherPhaseAgrees(lang, d, p, c);
    }
  }

  // ---- steps and runs -----------------------------------------------------------------------------

  lemma RunKeepsSetting(lang: Language, s: State, t: nat, c: Choice, id: ConnectionId, setting: Setting, v: Value)
    requires Inv(lang, s) && Lawful(lang) && Enabled(s, Run(t, c)) && Kept(s, id, setting, v)
    requires !Sets(PhaseOf(s, t), id, setting)
    ensures Kept(Apply(lang, s, Run(t, c)), id, setting, v)
  {
    hide DataOk, Lawful, Section, Stored, Sets, Exclusive, ThreadOk, Disagrees;
    var s' := Apply(lang, s, Run(t, c));
    if id in s.shared.records {
      SectionKeepsSetting(lang, s.shared, s.threads[t], c, id, setting, v);
      SectionAgrees(lang, s.shared, s.threads[t], c, id, setting, v);
    } else {
      GoneStaysGone(lang, s, Run(t, c), id, setting, v);
    }
  }

  lemma GoneStaysGone(lang: Language, s: State, step: Step, id: ConnectionId, setting: Setting, v: Value)
    requires Inv(lang, s) && Lawful(lang) && Enabled(s, step) && Stored(s.shared, id, setting, v)
      && id !in s.shared.records
    ensures Kept(Apply(lang, s, step), id, setting, v)
  {
    hide Inv, Lawful, Enabled, Apply, StepLocks, Guarantee;
    StepGuarantee(lang, s, step);
    StepFacts(StepLocks(s, step), s.shared, Apply(lang, s, step).shared, id);
  }

  lemma NewPhaseAgrees(p: Phase, id: ConnectionId, setting: Setting, v: Value)
    requires Wants(p).Some? && !Disagrees(p, id, setting, v)
    ensures !Disagrees(Acquired(p), id, setting, v)
  {
  }

  lemma FirstAgrees(request: Request, uid: nat, id: ConnectionId, setting: Setting, v: Value)
    ensures !Disagrees(FirstPhase(request, uid), id, setting, v) && !Disagrees(Idle, id, setting, v)
  {
  }

  lemma OtherStepKeepsSetting(lang: Language, s: State, step: Step, id: ConnectionId, setting: Setting, v: Value)
    requires Inv(lang, s) && Lawful(lang) && Enabled(s, step) && Kept(s, id, setting, v) && !step.Run?
    ensures Kept(Apply(lang, s, step), id, setting, v)
  {
    hide DataOk, Lawful, Guarantee, Disagrees, Stored, Exclusive, ThreadsOk, EnvironmentStep, Acquired, FirstPhase,
      Daemon.Accepted;
    hide LockFree;
    StepGuarantee(lang, s, step);
    OthersKeep(Locks(false, None), s.shared, Apply(lang, s, step).shared, id, setting, v);
    StepFacts(Locks(false, None), s.shared, Apply(lang, s, step).shared, id);
    CreatedMeans(s.shared, id, setting, v);
    match step
    case Acquire(t) =>
      if id in s.shared.records && t in s.threads {
        NewPhaseAgrees(s.threads[t], id, setting, v);
      }
    case Arrive(t, request, uid) => FirstAgrees(request, uid, id, setting, v);
    case Stop(t) => FirstAgrees(SweepRequest(id), 0, id, setting, v);
    case _ =>
  }

  lemma CreatedMeans(d: Shared, id: ConnectionId, setting: Setting, v: Value)
    requires Stored(d, id, setting, v)
    ensures id in d.created
  {
  }

  /** A setting whose value every waiting copy shares keeps it in every run that asks for no other. */
  lemma {:induction false} SettingSurvives(
      lang: Language, s: State, steps: seq<Step>, id: ConnectionId, setting: Setting, v: Value)
    requires Inv(lang, s) && Lawful(lang) && Kept(s, id, setting, v)
    requires Possible(lang, s, steps) && Obeys(lang, Leaves(id, setting), s, steps)
    ensures Kept(End(lang, s, steps), id, setting, v)
    decreases |steps|
  {
    hide Inv, Lawful, Kept, Enabled, Apply, Sets;
    if steps != [] {
      var step := steps[0];
      if step.Run? {
        RunKeepsSetting(lang, s, step.thread, step.choice, id, setting, v);
      } else {
        OtherStepKeepsSetting(lang, s, step, id, setting, v);
      }
      StepKeeps(lang, s, step);
      SettingSurvives(lang, Apply(lang, s, step), steps[1..], id, setting, v);
    }
  }

  // ---- an acknowledged setting ------------------------------------------------------------------------

  /** The state after the section of an edit that holds the connection's lock. */
  ghost function Following(lang: Language, s: State, t: nat, c: Choice): State
    requires PhaseOf(s, t).EditLocked?
  {
    Apply(lang, s, Run(t, c))
  }

  /** Thread `t` has the connection's lock and is about to store an edit that will be acknowledged. */
  ghost predicate Acknowledging(lang: Language, s: State, t: nat, c: Choice) {
    && PhaseOf(s, t).EditLocked? && PhaseOf(s, t).id in s.shared.records
    && PhaseOf(Following(lang, s, t, c), t) == Done(Unit)
  }

  /** A copy that disagrees is still waiting for the lock, which the edit has just released. */
  lemma CopyIsWaiting(lang: Language, s: State, t: nat, c: Choice, u: nat, setting: Setting, v: Value)
    requires Inv(lang, s) && Acknowledging(lang, s, t, c)
    requires Disagrees(PhaseOf(Following(lang, s, t, c), u), PhaseOf(s, t).id, setting, v)
    ensures u != t && u in s.threads && s.threads[u].AddWantConn?
    ensures FreeOf(s.threads[t := Done(Unit)], u, Connection(PhaseOf(s, t).id))
  {
    hide DataOk, ThreadsOk, Section, Disjoint;
    var id := PhaseOf(s, t).id;
    forall w | w in s.threads && w != t
      ensures !Holds(s.threads[w], Connection(id))
    {
      DisjointMeans(s.threads[t], s.threads[w], Connection(id));
    }
  }

  /** The waiting copy is written next, and nobody asked for its value. */
  lemma CopyOverwrites(
      lang: Language, d: Shared, m: map<nat, Phase>, u: nat, id: ConnectionId, setting: Setting, v: Value)
    requires u in m && m[u].AddWantConn? && Disagrees(m[u], id, setting, v) && FreeOf(m, u, Connection(id))
    ensures exists s' ::
      Goes(lang, Leaves(id, setting), State(d, m), s') && id in s'.shared.records
        && ValueOf(s'.shared.records[id], setting) != v
  {
    hide Goes, FreeOf;
    var rule, p := Leaves(id, setting), m[u];
    MapSame(m, u);
    Acquires(lang, rule, d, m, u, p);
    Runs(lang, rule, d, m, u, AddHaveConn(p.next, p.moves), Choice(id, true, false, false));
    GoesOn(lang, rule, State(d, m), At(d, m, u, AddHaveConn(p.next, p.moves)), At(Save(d, p.next), m, u, Done(Id(id))));
  }

  lemma AcknowledgedStored(lang: Language, s: State, t: nat, c: Choice)
    requires Inv(lang, s) && Lawful(lang) && Acknowledging(lang, s, t, c)
    ensures var id, s' := PhaseOf(s, t).id, Following(lang, s, t, c);
      && id in s'.shared.records && id in s'.shared.created && s'.threads == s.threads[t := Done(Unit)]
  {
    hide DataOk, ThreadsOk, Exclusive, EditSection, RecordOk;
    var p := PhaseOf(s, t);
    StoredRecord(lang, s.shared, p.id);
    EditKeepsRecord(lang, s.shared, p.id, p.edit, p.uid);
    RecordInCreated(lang, s.shared, p.id);
  }

  lemma RecordInCreated(lang: Language, d: Shared, id: ConnectionId)
    requires id in d.records && RecordOk(lang, d, id, d.records[id])
    ensures id in d.created
  {
  }

  lemma EditKeepsRecord(lang: Language, d: Shared, id: ConnectionId, edit: Edit, uid: nat)
    requires id in d.records
    ensures id in EditSection(lang, d, id, edit, uid).0.records
    ensures EditSection(lang, d, id, edit, uid).0.created == d.created
  {
  }

  /**
    From the moment an edit is acknowledged, its value stays in every run in which
    nobody asks for another, exactly if no waiting resubmission carries another.
   */
  lemma AcknowledgedExactly(lang: Language, s: State, t: nat, c: Choice)
    requires Lawful(lang) && Reachable(lang, s) && Acknowledging(lang, s, t, c)
    ensures var p, after := PhaseOf(s, t), Following(lang, s, t, c);
      var setting := SettingOf(p.edit);
      && p.id in after.shared.records
      && var v := ValueOf(after.shared.records[p.id], setting);
         (forall s' :: Goes(lang, Leaves(p.id, setting), after, s') && p.id in s'.shared.records
                   ==> ValueOf(s'.shared.records[p.id], setting) == v)
         <==> AllAgree(after.threads, p.id, setting, v)
  {
    hide Reachable, Lawful, Inv, Possible, Obeys, End, Section, Disagrees, ValueOf;
    ReachableInv(lang, s);
    AcknowledgedStored(lang, s, t, c);
    var id, after := PhaseOf(s, t).id, Following(lang, s, t, c);
    var setting := SettingOf(PhaseOf(s, t).edit);
    var v := ValueOf(after.shared.records[id], setting);
    if AllAgree(after.threads, id, setting, v) {
      RunKeeps(lang, s, t, c);
      forall s' | Goes(lang, Leaves(id, setting), after, s') && id in s'.shared.records
        ensures ValueOf(s'.shared.records[id], setting) == v
      {
        var steps :| Possible(lang, after, steps) && Obeys(lang, Leaves(id, setting), after, steps)
          && End(lang, after, steps) == s';
        SettingSurvives(lang, after, steps, id, setting, v);
      }
    } else {
      var u :| u in after.threads && Disagrees(after.threads[u], id, setting, v);
      CopyIsWaiting(lang, s, t, c, u, setting, v);
      CopyOverwrites(lang, after.shared, after.threads, u, id, setting, v);
    }
  }

  // ---- acknowledged settings can be lost -----------------------------------------------------------------

  /** An edit that gives the freshly added record another value. */
  predicate NewValue(lang: Language, config: Config, edit: Edit) {
    match edit
    case SetMode(mode, _) => mode == Automatic
    case SetDns(enabled) => enabled
    case SetLinks(links) => lang.validate(links, config).Some? && lang.validate(links, config).value != []
  }

  lemma EditAcknowledged(lang: Language, text: string, config: Config, edit: Edit)
    requires NewValue(lang, config, edit)
    ensures var d := OneRecord(lang, text, config);
      var (d', p) := EditSection(lang, d, ID, edit, UID);
      var setting := SettingOf(edit);
      && p == Done(Unit) && ID in d'.records
      && ValueOf(d'.records[ID], setting) != ValueOf(FirstRecord(lang, text, config).(sourcePath := Some("x")), setting)
  {
  }

  /** Thread 2 holds the lock of the only connection to edit it, and thread 1 waits with its copy. */
  function EditRace(lang: Language, text: string, config: Config, edit: Edit): State {
    State(OneRecord(lang, text, config),
          map[0 := Done(Id(ID)), 1 := StaleCopyOf(lang, text, config), 2 := EditLocked(ID, edit, UID)])
  }

  lemma EditRaceReachable(lang: Language, text: string, config: Config, edit: Edit)
    requires lang.parse(text) == Some(config)
    ensures Reachable(lang, EditRace(lang, text, config, edit))
  {
    hide Goes, Reachable, FirstRecord, OneRecord;
    var d, m := OneRecord(lang, text, config), map[0 := Done(Id(ID)), 1 := StaleCopyOf(lang, text, config)];
    StaleCopyReachable(lang, text, config);
    EditReachesLock(lang, Anything, d, m, 2, ID, edit, UID);
    ReachesOn(lang, Anything, State(d, m), At(d, m, 2, EditLocked(ID, edit, UID)));
    assert At(d, m, 2, EditLocked(ID, edit, UID)) == EditRace(lang, text, config, edit);
  }

  /**
    For every language with a usable text and each kind of setting: a reachable
    state in which an edit is acknowledged while a copy without it is waiting.
   */
  lemma AcknowledgedCanBeLost(lang: Language, text: string, config: Config, edit: Edit)
    requires lang.parse(text) == Some(config) && NewValue(lang, config, edit)
    ensures exists s, t, c ::
      && Reachable(lang, s) && Acknowledging(lang, s, t, c) && PhaseOf(s, t).edit == edit
      && var id, after := PhaseOf(s, t).id, Following(lang, s, t, c);
         && id in after.shared.records
         && !AllAgree(after.threads, id, SettingOf(edit), ValueOf(after.shared.records[id], SettingOf(edit)))
  {
    hide Reachable, FirstRecord, NewValue, EditSection;
    var s := EditRace(lang, text, config, edit);
    EditRaceReachable(lang, text, config, edit);
    FirstRecordFacts(lang, text, config);
    EditAcknowledged(lang, text, config, edit);
    var after := Following(lang, s, 2, Good(ID));
    assert Disagrees(after.threads[1], ID, SettingOf(edit), ValueOf(after.shared.records[ID], SettingOf(edit)));
    assert Acknowledging(lang, s, 2, Good(ID));
  }
}
