/**
  What the answers other than success mean. A refusal is given for the reason it
  names, found in the state the answering step saw, and changes nothing; a request
  is given no answer that is not its own.
 */
module DaemonRefusals {
  import opened Wrappers
  import opened Records
  import opened Daemon
  import opened DaemonInvariant
  import opened DaemonEffects
  import opened DaemonSections
  import opened DaemonSafety
  import opened DaemonGuarantees
  import opened DaemonRuns
  import opened DaemonSettings
  import opened DaemonOutcomes
  import opened DaemonCallers

  // ---- reasons ------------------------------------------------------------------------------------

  /** The form was missing or refused, and the answer says which. */
  predicate FormRefused(form: Form, reply: Reply) {
    (reply == AuthRequired && form.Absent?) || (reply == Denied && form.Refused?)
  }

  /** The record has the identity of the submission. */
  predicate Submits(lang: Language, a: Add, r: Record) {
    var parsed := lang.parse(Effective(lang, a.text, a.mtu));
    parsed.Some? && r.fingerprint == lang.fingerprint(parsed.value) && r.global == a.global && r.owner == a.owner
  }

  /** An identical resubmission needs a form only to make a global connection start by itself. */
  predicate AddNeedsForm(lang: Language, d: Shared, a: Add) {
    forall id :: id in d.records && Submits(lang, a, d.records[id]) ==>
      d.records[id].global && d.records[id].mode == Manual && a.mode == Automatic
  }

  /** The name is asked for and held by a record other than the one resubmitted. */
  ghost predicate AddNameHeld(lang: Language, d: Shared, a: Add) {
    && a.name.Some? && !a.force
    && exists other ::
         && other in d.records && !Submits(lang, a, d.records[other])
         && d.records[other].name == a.name && d.records[other].global == a.global && d.records[other].owner == a.owner
  }

  ghost predicate AddFails(lang: Language, d: Shared, a: Add, c: Choice) {
    || lang.parse(Effective(lang, a.text, a.mtu)).None? || d.unreadable != {}
    || c.id in d.minted || exists id :: id in d.records && d.records[id].interface == InterfaceName(c.id)
  }

  ghost predicate AddRefuses(lang: Language, a: Add, c: Choice, reply: Reply, d: Shared) {
    if reply.NameInUse? then AddNameHeld(lang, d, a)
    else if reply.Failed? then AddFails(lang, d, a, c)
    else FormRefused(a.form, reply) && AddNeedsForm(lang, d, a)
  }

  /** Another record of the same scope and owner has the refreshed configuration. */
  ghost predicate RefreshDuplicates(lang: Language, d: Shared, id: ConnectionId, text: string)
    requires id in d.records
  {
    exists other ::
      && other in d.records && other != id
      && d.records[other].global == d.records[id].global && d.records[other].owner == d.records[id].owner
      && DenotedBy(lang, d.records[id].(fingerprint := d.records[other].fingerprint), text)
  }

  ghost predicate RefreshRefuses(lang: Language, id: ConnectionId, text: string, form: Form, reply: Reply, d: Shared) {
    if id in d.unreadable then reply.Failed?
    else if id !in d.records then reply.NotFound?
    else if lang.parse(Effective(lang, text, d.records[id].mtuOverride)).None? then reply.Failed?
    else
      && !DenotedBy(lang, d.records[id], text)
      && ((reply.Failed? && d.unreadable != {})
          || (reply.Duplicate? && RefreshDuplicates(lang, d, id, text))
          || FormRefused(form, reply))
  }

  /** What a connect at work may be refused for. */
  ghost predicate UpRefuses(id: ConnectionId, c: Choice, reply: Reply, d: Shared, p: Phase) {
    var interface := InterfaceName(id);
    if p.UpCheck? then
      && interface in d.sockets
      && if reply.Conflict? then id !in d.markers || d.markers[id].socket != d.sockets[interface]
         else
           && reply == Mismatch(id) && id in d.records
           && id in d.markers && d.markers[id].socket == d.sockets[interface]
           && d.markers[id].fingerprint != d.records[id].fingerprint
    else
      && reply.Failed?
      && (|| (p.UpLoad? && (id !in d.records || id in d.unreadable || |d.records[id].config.peers| != 1))
          || (p.UpSpawn? && HelperOn(d, interface))
          || (p.UpPost? && c.ok && interface !in d.sockets)
          || p.UpRollback?)
  }

  /** A teardown fails if its record does not load or the helper does not confirm. */
  predicate DownRefuses(id: ConnectionId, c: Choice, reply: Reply, d: Shared, p: Phase) {
    && reply == Failed
    && ((p.DownLoad? && (id !in d.records || id in d.unreadable)) || (p.DownRun? && !c.ok))
  }

  ghost predicate EditRefuses(id: ConnectionId, edit: Edit, uid: nat, reply: Reply, d: Shared) {
    if id in d.unreadable then reply.Failed?
    else if id !in d.records then reply.NotFound?
    else if !MayUse(d.records[id], uid) then reply.Denied?
    else if edit.SetLinks? then reply.InvalidLink?
    else
      && edit.SetMode? && FormRefused(edit.form, reply)
      && edit.mode == Automatic && d.records[id].global && d.records[id].mode == Manual
  }

  ghost predicate RemoveRefuses(id: ConnectionId, form: Form, uid: nat, c: Choice, reply: Reply, d: Shared, p: Phase) {
    if p.RemoveIndexed? then
      if id in d.unreadable then reply.Failed?
      else if id !in d.records then reply.NotFound?
      else reply.Denied? && !MayUse(d.records[id], uid)
    else if LooksUp(d, id) && !c.statFails then reply.Busy?
    else FormRefused(form, reply)
  }

  /** Why a request is answered with something other than success. */
  ghost predicate Refuses(lang: Language, request: Request, uid: nat, c: Choice, reply: Reply, d: Shared, p: Phase) {
    match request
    case AddRequest(a) => AddRefuses(lang, a, c, reply, d)
    case RefreshRequest(id, text, _, form) =>
      if p.RefreshLocked? then RefreshRefuses(lang, id, text, form, reply, d)
      else UpRefuses(id, c, reply, d, p) || DownRefuses(id, c, reply, d, p)
    case RemoveRequest(id, form) => RemoveRefuses(id, form, uid, c, reply, d, p)
    case ConnectRequest(id, _, _) => IntentRefuses(id, reply, d, p) || UpRefuses(id, c, reply, d, p)
    case BootRequest(id) => IntentRefuses(id, reply, d, p) || UpRefuses(id, c, reply, d, p)
    case DisconnectRequest(id, byUser) =>
      (p.DisconnectMark? && reply == Failed && byUser && id in d.unreadable) || DownRefuses(id, c, reply, d, p)
    case ReconnectRequest(id) =>
      || (p.ReconnectLocked? && reply == NotActive && (c.statFails || !LooksUp(d, id)))
      || UpRefuses(id, c, reply, d, p) || DownRefuses(id, c, reply, d, p)
    case EditRequest(id, edit) => EditRefuses(id, edit, uid, reply, d)
    case SweepRequest(_) => false
  }

  predicate IntentRefuses(id: ConnectionId, reply: Reply, d: Shared, p: Phase) {
    p.ConnectIntent? && reply == Failed && id in d.unreadable
  }

  predicate Succeeds(request: Request, reply: Reply) {
    if request.AddRequest? then reply.Id? else reply == Unit
  }

  /** Success, or a refusal with its reason and without effect, except that a teardown may fail half way. */
  ghost predicate Answers(
      lang: Language, request: Request, uid: nat, c: Choice, reply: Reply, d: Shared, p: Phase, d': Shared)
  {
    || Succeeds(request, reply)
    || (Refuses(lang, request, uid, c, reply, d, p) && (!p.DownRun? && !p.UpRollback? ==> d' == d))
  }

  ghost predicate IfAnswers(
      lang: Language, request: Request, uid: nat, c: Choice, d: Shared, p: Phase, r: (Shared, Phase)) {
    r.1.Done? ==> Answers(lang, request, uid, c, r.1.reply, d, p, r.0)
  }

  // ---- one section ----------------------------------------------------------------------------------

  lemma ExistingRefuses(lang: Language, d: Shared, a: Add, c: Choice, id: ConnectionId)
    requires DataOk(lang, d) && id in d.records && Submits(lang, a, d.records[id])
    ensures var r := AddExisting(d, a, d.records[id]);
      r.1.Done? && !r.1.reply.Id? ==> AddRefuses(lang, a, c, r.1.reply, d) && r.0 == d
  {
    hide DataOk, RecordOk, Effective;
    var existing := d.records[id];
    StoredRecord(lang, d, id);
    RecordId(lang, d, id);
    OnlyOneSubmits(lang, d, a, id);
    if a.name.Some? && NameTaken(d, a.name.value, existing.global, existing.owner) {
      var other :| other in d.records && HasName(d.records[other], a.name.value, existing.global, existing.owner);
      assert other == id ==> Resubmitted(existing, a).name == existing.name;
    }
  }

  lemma OnlyOneSubmits(lang: Language, d: Shared, a: Add, id: ConnectionId)
    requires DataOk(lang, d) && id in d.records && Submits(lang, a, d.records[id])
    ensures forall other :: other in d.records && Submits(lang, a, d.records[other]) ==> other == id
  {
    hide RecordsOk, MarkersCurrent, LiveOk, Effective;
    forall other | other in d.records && other != id
      ensures !Submits(lang, a, d.records[other])
    {
      assert Apart(d.forced, d.records[id], d.records[other]);
    }
  }

  lemma NewRefuses(lang: Language, d: Shared, a: Add, c: Choice)
    requires lang.parse(Effective(lang, a.text, a.mtu)).Some? && d.unreadable == {}
    requires forall id :: id in d.records ==> !Submits(lang, a, d.records[id])
    ensures var text := Effective(lang, a.text, a.mtu);
      var config := lang.parse(text).value;
      var r := AddNew(d, a, lang.fingerprint(config), config, text, c);
      r.1.Done? ==> AddRefuses(lang, a, c, r.1.reply, d) && r.0 == d
  {
    hide Effective;
    if a.name.Some? && NameTaken(d, a.name.value, a.global, a.owner) {
      var other :| other in d.records && HasName(d.records[other], a.name.value, a.global, a.owner);
      assert !Submits(lang, a, d.records[other]);
    }
  }

  lemma AddSectionRefuses(lang: Language, d: Shared, a: Add, c: Choice, p: Phase, uid: nat)
    requires DataOk(lang, d)
    ensures IfAnswers(lang, AddRequest(a), uid, c, d, p, AddSection(lang, d, a, c))
  {
    hide DataOk, AddExisting, AddNew, AddRefuses, Effective, InterfaceName, FoundIdentity, Submits;
    var parsed := lang.parse(Effective(lang, a.text, a.mtu));
    if parsed.None? || d.unreadable != {} {
      FailsAtOnce(lang, d, a, c);
    } else {
      FoundSubmits(lang, d, a);
      if c.id in d.records && Submits(lang, a, d.records[c.id]) {
        ExistingRefuses(lang, d, a, c, c.id);
      } else if forall id :: id in d.records ==> !Submits(lang, a, d.records[id]) {
        NewRefuses(lang, d, a, c);
      }
    }
  }

  lemma FoundSubmits(lang: Language, d: Shared, a: Add)
    requires lang.parse(Effective(lang, a.text, a.mtu)).Some?
    ensures var fingerprint := lang.fingerprint(lang.parse(Effective(lang, a.text, a.mtu)).value);
      forall id :: FoundIdentity(d, fingerprint, a.global, a.owner, id) <==>
        id in d.records && Submits(lang, a, d.records[id])
  {
    hide Effective;
  }

  lemma FailsAtOnce(lang: Language, d: Shared, a: Add, c: Choice)
    requires lang.parse(Effective(lang, a.text, a.mtu)).None? || d.unreadable != {}
    ensures AddRefuses(lang, a, c, Failed, d)
  {
  }

  lemma AddAnswers(lang: Language, a: Add, uid: nat, d: Shared, p: Phase, c: Choice)
    requires DataOk(lang, d) && Runnable(p) && ServingAdd(lang, a, p)
    ensures IfAnswers(lang, AddRequest(a), uid, c, d, p, Section(lang, d, p, c))
  {
    hide DataOk, AddSection, AsAsked, AsSubmitted, AddRefuses;
    if p.AddIndexed? {
      AddSectionRefuses(lang, d, a, c, p, uid);
    }
  }

  lemma RefreshSectionRefuses(
      lang: Language, d: Shared, id: ConnectionId, text: string, source: Option<string>, form: Form)
    requires DataOk(lang, d)
    ensures var r := RefreshSection(lang, d, id, text, source, form);
      r.1.Done? && r.1.reply != Unit ==> RefreshRefuses(lang, id, text, form, r.1.reply, d) && r.0 == d
  {
    hide DataOk, Effective, Refreshed;
    if id in d.records {
      StoredRecord(lang, d, id);
    }
  }

  /** The phases of a connect in progress. */
  lemma UpAnswers(lang: Language, d: Shared, p: Phase, c: Choice, id: ConnectionId)
    requires DataOk(lang, d) && ThreadOk(lang, d, p) && Runnable(p) && GoingUp(p, id)
    ensures var (d', p') := Section(lang, d, p, c);
      p'.Done? && p'.reply != Unit ==> UpRefuses(id, c, p'.reply, d, p) && (!p.UpRollback? ==> d' == d)
  {
    hide DataOk, ThreadOk, Section, UpRefuses, RecordOk;
    if id in d.records {
      StoredRecord(lang, d, id);
      RecordNamed(lang, d, id);
    }
    if p.UpLoad? {
      LoadAnswers(lang, d, p, c);
    } else if p.UpCheck? {
      CheckAnswers(lang, d, p, c);
    } else {
      LaunchAnswers(lang, d, p, c);
    }
  }

  lemma LoadAnswers(lang: Language, d: Shared, p: Phase, c: Choice)
    requires p.UpLoad? && ThreadOk(lang, d, p) && DataOk(lang, d)
    ensures var (d', p') := Section(lang, d, p, c);
      p'.Done? && p'.reply != Unit ==> UpRefuses(p.id, c, p'.reply, d, p) && d' == d
  {
    hide DataOk, ThreadOk, HelperOn, Reparses;
    if p.id in d.records {
      StoredRecord(lang, d, p.id);
      ReparsesStored(lang, d, p.id);
    }
  }

  lemma ReparsesStored(lang: Language, d: Shared, id: ConnectionId)
    requires id in d.records && RecordOk(lang, d, id, d.records[id])
    ensures Reparses(lang, d.records[id])
  {
  }

  lemma CheckAnswers(lang: Language, d: Shared, p: Phase, c: Choice)
    requires p.UpCheck? && ThreadOk(lang, d, p)
    requires p.stored.id in d.records ==> d.records[p.stored.id].interface == InterfaceName(p.stored.id)
    ensures var (d', p') := Section(lang, d, p, c);
      p'.Done? && p'.reply != Unit ==> UpRefuses(p.stored.id, c, p'.reply, d, p) && d' == d
  {
    hide AddPart, AccessPart, RewritePart, SocketPart, ReplyPart, HelperOn;
  }

  lemma LaunchAnswers(lang: Language, d: Shared, p: Phase, c: Choice)
    requires p.UpClear? || p.UpSpawn? || p.UpPost? || p.UpRollback? || p.UpSave? || p.UpOk?
    requires ThreadOk(lang, d, p)
    requires p.stored.id in d.records ==> d.records[p.stored.id].interface == InterfaceName(p.stored.id)
    ensures var (d', p') := Section(lang, d, p, c);
      p'.Done? && p'.reply != Unit ==> UpRefuses(p.stored.id, c, p'.reply, d, p) && (!p.UpRollback? ==> d' == d)
  {
    hide AddPart, AccessPart, RewritePart, SocketPart, ReplyPart, HelperOn, ClearDead, DownEffect, Spawn;
  }

  lemma DownAnswers(lang: Language, d: Shared, p: Phase, c: Choice, id: ConnectionId)
    requires Runnable(p) && GoingDown(p, id)
    ensures var (d', p') := Section(lang, d, p, c);
      p'.Done? && p'.reply != Unit ==> DownRefuses(id, c, p'.reply, d, p) && (!p.DownRun? ==> d' == d)
  {
    hide DownEffect;
  }

  lemma RefreshAnswers(
      lang: Language, id: ConnectionId, text: string, source: Option<string>, form: Form, uid: nat, d: Shared,
      p: Phase, c: Choice)
    requires DataOk(lang, d) && ThreadOk(lang, d, p) && Runnable(p)
    requires ServingRefresh(lang, id, text, source, form, d, p)
    ensures IfAnswers(lang, RefreshRequest(id, text, source, form), uid, c, d, p, Section(lang, d, p, c))
  {
    hide DataOk, ThreadOk, Section, Fresh, Replaced, DenotedBy, UpRefuses, DownRefuses, RefreshRefuses;
    hide ServingRefresh, Rewriting, GoingUp, GoingDown;
    RefreshPhases(lang, id, text, source, form, d, p);
    if p.RefreshLocked? {
      RefreshIsSection(lang, d, p, c);
      RefreshSectionRefuses(lang, d, id, text, source, form);
    } else if p.RefreshTouch? || p.RefreshAuthed? || p.RefreshWrite? {
      RefreshRestAnswers(lang, d, p, c);
    } else if RewriteOf(p).Some? {
      DownAnswers(lang, d, p, c, id);
    } else {
      UpAnswers(lang, d, p, c, id);
    }
  }

  lemma RefreshIsSection(lang: Language, d: Shared, p: Phase, c: Choice)
    requires p.RefreshLocked?
    ensures Section(lang, d, p, c) == RefreshSection(lang, d, p.id, p.text, p.source, p.form)
  {
    hide RefreshSection;
  }

  lemma RefreshRestAnswers(lang: Language, d: Shared, p: Phase, c: Choice)
    requires p.RefreshTouch? || p.RefreshAuthed? || p.RefreshWrite?
    ensures var p' := Section(lang, d, p, c).1; p'.Done? ==> p'.reply == Unit
  {
    hide ActiveDebug;
  }

  lemma RemoveRefused(lang: Language, id: ConnectionId, form: Form, uid: nat, d: Shared, p: Phase, c: Choice)
    requires Runnable(p) && ServingRemove(id, form, p) && (p.RemoveIndexed? ==> p.uid == uid)
    ensures IfAnswers(lang, RemoveRequest(id, form), uid, c, d, p, Section(lang, d, p, c))
  {
  }

  lemma ConnectAnswers(
      lang: Language, id: ConnectionId, debug: bool, reason: Reason, d: Shared, p: Phase, c: Choice)
    requires DataOk(lang, d) && ThreadOk(lang, d, p) && Runnable(p) && ServingConnect(id, debug, reason, d, p)
    ensures var (d', p') := Section(lang, d, p, c);
      p'.Done? && p'.reply != Unit ==>
        (IntentRefuses(id, p'.reply, d, p) || UpRefuses(id, c, p'.reply, d, p)) && (!p.UpRollback? ==> d' == d)
  {
    hide DataOk, ThreadOk, Section, UpRefuses;
    if p.ConnectIntent? {
      IntentAnswers(lang, d, p, c);
    } else {
      UpAnswers(lang, d, p, c, id);
    }
  }

  lemma IntentAnswers(lang: Language, d: Shared, p: Phase, c: Choice)
    requires p.ConnectIntent?
    ensures var (d', p') := Section(lang, d, p, c);
      p'.Done? && p'.reply != Unit ==> IntentRefuses(p.id, p'.reply, d, p) && d' == d
  {
  }

  lemma DisconnectAnswers(lang: Language, id: ConnectionId, byUser: bool, uid: nat, d: Shared, p: Phase, c: Choice)
    requires Runnable(p) && ServingDisconnect(id, byUser, d, p)
    ensures IfAnswers(lang, DisconnectRequest(id, byUser), uid, c, d, p, Section(lang, d, p, c))
  {
    hide Section, DownRefuses;
    if p.DisconnectMark? {
      MarkAnswers(lang, d, p, c);
    } else {
      DownAnswers(lang, d, p, c, id);
    }
  }

  lemma MarkAnswers(lang: Language, d: Shared, p: Phase, c: Choice)
    requires p.DisconnectMark?
    ensures var (d', p') := Section(lang, d, p, c);
      p'.Done? ==> p'.reply == Failed && p.byUser && p.id in d.unreadable && d' == d
  {
  }

  lemma ReconnectAnswers(lang: Language, id: ConnectionId, uid: nat, d: Shared, p: Phase, c: Choice)
    requires DataOk(lang, d) && ThreadOk(lang, d, p) && Runnable(p) && ServingReconnect(lang, id, d, p)
    ensures IfAnswers(lang, ReconnectRequest(id), uid, c, d, p, Section(lang, d, p, c))
  {
    hide DataOk, ThreadOk, Section, Fresh, UpRefuses, DownRefuses;
    if p.ReconnectLocked? {
      ReconnectRefused(lang, d, p, c);
    } else if GoingUp(p, id) {
      UpAnswers(lang, d, p, c, id);
    } else {
      DownAnswers(lang, d, p, c, id);
    }
  }

  /** A reconnect goes on with a teardown exactly if the connection looks up and the stat works. */
  lemma ReconnectRefused(lang: Language, d: Shared, p: Phase, c: Choice)
    requires p.ReconnectLocked?
    ensures Section(lang, d, p, c) ==
      (d, if LooksUp(d, p.id) && !c.statFails then DownLoad(p.id, Reconnect(d.markers[p.id].debug))
       else Done(NotActive))
  {
  }

  lemma EditRefused(lang: Language, id: ConnectionId, edit: Edit, uid: nat, d: Shared, p: Phase, c: Choice)
    requires Runnable(p) && ServingEdit(id, edit, p) && (p.EditLocked? ==> p.uid == uid)
    ensures IfAnswers(lang, EditRequest(id, edit), uid, c, d, p, Section(lang, d, p, c))
  {
    hide Section, EditSection;
    EditIsSection(lang, d, p, c);
    EditSectionRefuses(lang, d, id, edit, uid);
  }

  lemma EditSectionRefuses(lang: Language, d: Shared, id: ConnectionId, edit: Edit, uid: nat)
    ensures var (d', p') := EditSection(lang, d, id, edit, uid);
      p'.Done? && (p'.reply != Unit ==> EditRefuses(id, edit, uid, p'.reply, d) && d' == d)
  {
  }

  lemma SweepAnswers(lang: Language, id: ConnectionId, uid: nat, d: Shared, p: Phase, c: Choice)
    requires Runnable(p) && ServingSweep(id, p)
    ensures IfAnswers(lang, SweepRequest(id), uid, c, d, p, Section(lang, d, p, c))
  {
    hide ClearDead;
  }

  /** Whatever a request is answered with, it is its own answer, and for its own reason. */
  lemma SectionAnswers(lang: Language, request: Request, uid: nat, d: Shared, p: Phase, c: Choice)
    requires DataOk(lang, d) && ThreadOk(lang, d, p) && Runnable(p)
    requires AtWork(lang, request, d, p) && Vetted(request, uid, d, p)
    ensures IfAnswers(lang, request, uid, c, d, p, Section(lang, d, p, c))
  {
    hide DataOk, ThreadOk, Section, ServingAdd, ServingRefresh, ServingConnect, ServingDisconnect, Allowed;
    hide ServingReconnect, ServingSweep, UpRefuses, DownRefuses, AddRefuses, RefreshRefuses, EditRefuses,
      RemoveRefuses;
    match request
    case AddRequest(a) => AddAnswers(lang, a, uid, d, p, c);
    case RefreshRequest(id, text, source, form) => RefreshAnswers(lang, id, text, source, form, uid, d, p, c);
    case RemoveRequest(id, form) => RemoveRefused(lang, id, form, uid, d, p, c);
    case ConnectRequest(id, debug, reason) => ConnectAnswers(lang, id, debug, reason, d, p, c);
    case BootRequest(id) => ConnectAnswers(lang, id, false, Reconciliation, d, p, c);
    case DisconnectRequest(id, byUser) => DisconnectAnswers(lang, id, byUser, uid, d, p, c);
    case ReconnectRequest(id) => ReconnectAnswers(lang, id, uid, d, p, c);
    case EditRequest(id, edit) => EditRefused(lang, id, edit, uid, d, p, c);
    case SweepRequest(id) => SweepAnswers(lang, id, uid, d, p, c);
  }

  // ---- decisions ---------------------------------------------------------------------------------------

  /** With a working stat a removal is busy exactly if the connection looks up, and then nothing changes. */
  lemma BusyExactly(lang: Language, s: State, t: nat, c: Choice)
    requires PhaseOf(s, t).RemoveLocked? && !c.statFails
    ensures var id, s' := PhaseOf(s, t).id, Apply(lang, s, Run(t, c));
      && (PhaseOf(s', t) == Done(Busy) <==> id in s.shared.markers && InterfaceName(id) in s.shared.sockets)
      && (PhaseOf(s', t) == Done(Busy) ==> s'.shared == s.shared)
  {
  }

  /** A connect that finds the marked helper of the current configuration running is on its way to success. */
  lemma RunningIsAdopted(lang: Language, s: State, t: nat, c: Choice)
    requires Lawful(lang) && Reachable(lang, s) && PhaseOf(s, t).UpCheck?
    ensures var p, d, s' := PhaseOf(s, t), s.shared, Apply(lang, s, Run(t, c));
      var id := p.stored.id;
      && s'.shared == d
      && (PhaseOf(s', t) == UpOk(p.stored) <==>
            && id in d.records && LooksUp(d, id) && d.markers[id].socket == d.sockets[InterfaceName(id)]
            && d.markers[id].fingerprint == d.records[id].fingerprint)
  {
    hide Reachable, Lawful, AddPart, AccessPart, RewritePart, SocketPart, ReplyPart, Exclusive, DataOk, RecordOk;
    ReachableInv(lang, s);
    assert ThreadOk(lang, s.shared, s.threads[t]);
    StoredRecord(lang, s.shared, PhaseOf(s, t).stored.id);
    RecordNamed(lang, s.shared, PhaseOf(s, t).stored.id);
  }

  /**
    A refresh that changes the configuration tears down first exactly if the connection looks up and the stat
    works.
   */
  lemma RefreshTearsDownExactly(lang: Language, d: Shared, next: Record, c: Choice)
    ensures var (d', p') := Section(lang, d, RefreshAuthed(next), c);
      && d'.records == d.records && d'.markers == d.markers && d'.sockets == d.sockets && d'.live == d.live
      && p' == if LooksUp(d, next.id) && !c.statFails then DownLoad(next.id, Rewrite(next, d.markers[next.id].debug))
               else RefreshWrite(next, None)
  {
  }

  /** The section loads the record of `id`. */
  predicate LoadsRecord(p: Phase, id: ConnectionId) {
    || ((p.RefreshLocked? || p.RemoveIndexed? || p.ConnectIntent? || p.UpLoad? || p.DownLoad? || p.EditLocked?)
        && p.id == id)
    || (p.DisconnectMark? && p.byUser && p.id == id)
  }

  /** Whatever loads a record that cannot be read fails, and changes nothing. */
  lemma UnreadableStops(lang: Language, d: Shared, p: Phase, c: Choice, id: ConnectionId)
    requires LoadsRecord(p, id) && id in d.unreadable
    ensures Section(lang, d, p, c) == (d, Done(Failed))
  {
  }

  /** In every reachable state, a connect loads exactly a readable stored record with one peer. */
  lemma LoadsExactly(lang: Language, s: State, t: nat, c: Choice)
    requires Lawful(lang) && Reachable(lang, s) && PhaseOf(s, t).UpLoad?
    ensures var id, d, s' := PhaseOf(s, t).id, s.shared, Apply(lang, s, Run(t, c));
      && s'.shared == d
      && (StoredOf(PhaseOf(s', t)).Some? <==>
            id in d.records && id !in d.unreadable && |d.records[id].config.peers| == 1)
  {
    hide Reachable, Lawful, ThreadsOk, Exclusive, DataOk, Reparses, RecordOk;
    ReachableInv(lang, s);
    var id := PhaseOf(s, t).id;
    if id in s.shared.records {
      StoredRecord(lang, s.shared, id);
      ReparsesStored(lang, s.shared, id);
    }
  }
}
