/**
  What a request may write. Whatever the other threads do, the steps of a thread
  that serves a request write the record the request asks for, as it asks, or
  nothing: a disconnect for a session's end leaves no trace in the store.
 */
module DaemonFrames {
  import opened Wrappers
  import opened Records
  import opened Daemon
  import opened DaemonInvariant
  import opened DaemonEffects
  import opened DaemonSections
  import opened DaemonSafety
  import opened DaemonGuarantees
  import opened DaemonRuns
  import opened DaemonSettings
  import opened DaemonOutcomes
  import opened DaemonCallers
  import opened DaemonRefusals

  /** Only the record of `id` differs. */
  predicate OnlyRecord(d: Shared, d': Shared, id: ConnectionId) {
    id in d.records && id in d'.records && d'.records == d.records[id := d'.records[id]]
  }

  /** Only the user's flag of `id` differs. */
  predicate OnlyFlag(d: Shared, d': Shared, id: ConnectionId, flag: bool) {
    id in d.records && d'.records == d.records[id := d.records[id].(userDisconnected := flag)]
  }

  /** What a step of this request may have done to the records. */
  ghost predicate Wrote(lang: Language, request: Request, d: Shared, d': Shared) {
    match request
    case AddRequest(a) => exists id :: Added(lang, a, id, d, d')
    case RefreshRequest(id, text, source, form) =>
      && OnlyRecord(d, d', id)
      && var r, r' := d.records[id], d'.records[id];
         || (r' == r.(sourcePath := source) && DenotedBy(lang, r, text))
         || (form == Verified && Replaced(lang, r', text, source) && RewritesLinks(lang, r, r'))
    case RemoveRequest(id, form) => form == Verified && id in d.records && d'.records == d.records - {id}
    case ConnectRequest(id, _, reason) => reason.User? && OnlyFlag(d, d', id, false)
    case BootRequest(_) => false
    case DisconnectRequest(id, byUser) => byUser && OnlyFlag(d, d', id, true)
    case ReconnectRequest(_) => false
    case EditRequest(id, edit) => OnlyRecord(d, d', id) && Set(lang, edit, d.records[id], d'.records[id])
    case SweepRequest(_) => false
  }

  /** The caller may use the connection that was written. */
  predicate WriterMayUse(request: Request, uid: nat, d: Shared) {
    match request
    case AddRequest(a) => MayAdd(a, uid)
    case _ => Subject(request).Some? && Subject(request).value in d.records
              && MayUse(d.records[Subject(request).value], uid)
  }

  ghost predicate Frames(lang: Language, request: Request, uid: nat, d: Shared, d': Shared) {
    d'.records == d.records || (Wrote(lang, request, d, d') && WriterMayUse(request, uid, d))
  }

  // ---- one section ------------------------------------------------------------------------------

  lemma AddFrames(lang: Language, a: Add, uid: nat, d: Shared, p: Phase, c: Choice)
    requires DataOk(lang, d) && ThreadOk(lang, d, p) && Runnable(p) && ServingAdd(lang, a, p) && MayAdd(a, uid)
    ensures Frames(lang, AddRequest(a), uid, d, Section(lang, d, p, c).0)
  {
    hide DataOk, ThreadOk, Section, AddSection, Added;
    if p.AddIndexed? {
      AddIsSection(lang, d, p, c);
      ReaderRecords(lang, d, p, c);
    } else {
      AddWrites(lang, a, d, p, c);
      assert Added(lang, a, Section(lang, d, p, c).1.reply.id, d, Section(lang, d, p, c).0);
    }
  }

  lemma TouchFrames(
      lang: Language, id: ConnectionId, text: string, source: Option<string>, form: Form, uid: nat, d: Shared,
      p: Phase, c: Choice)
    requires ThreadOk(lang, d, p) && p.RefreshTouch? && Allowed(d, id, uid)
    requires p.next.id == id && p.next.sourcePath == source && DenotedBy(lang, p.next, text)
    ensures Frames(lang, RefreshRequest(id, text, source, form), uid, d, Section(lang, d, p, c).0)
  {
    hide AddPart, RewritePart, ReplyPart, SocketPart, StoredPart;
  }

  lemma RewriteFrames(
      lang: Language, id: ConnectionId, text: string, source: Option<string>, form: Form, uid: nat, d: Shared,
      p: Phase, c: Choice)
    requires ThreadOk(lang, d, p) && p.RefreshWrite? && Allowed(d, id, uid) && form == Verified
    requires Rewriting(lang, d, id, text, source, p)
    ensures Frames(lang, RefreshRequest(id, text, source, form), uid, d, Section(lang, d, p, c).0)
  {
    hide AddPart, AccessPart, ReplyPart, SocketPart, StoredPart, Replaced, Apart;
  }

  lemma RefreshFrames(
      lang: Language, id: ConnectionId, text: string, source: Option<string>, form: Form, uid: nat, d: Shared,
      p: Phase, c: Choice)
    requires DataOk(lang, d) && ThreadOk(lang, d, p) && Runnable(p) && Allowed(d, id, uid)
    requires ServingRefresh(lang, id, text, source, form, d, p)
    ensures Frames(lang, RefreshRequest(id, text, source, form), uid, d, Section(lang, d, p, c).0)
  {
    hide DataOk, ThreadOk, Section, Wrote, Fresh, Replaced, DenotedBy, Allowed, ServingRefresh, Rewriting;
    RefreshPhases(lang, id, text, source, form, d, p);
    if p.RefreshTouch? {
      TouchFrames(lang, id, text, source, form, uid, d, p, c);
    } else if p.RefreshWrite? {
      RewriteFrames(lang, id, text, source, form, uid, d, p, c);
    } else {
      ReaderRecords(lang, d, p, c);
    }
  }

  lemma RemoveFrames(lang: Language, id: ConnectionId, form: Form, uid: nat, d: Shared, p: Phase, c: Choice)
    requires Runnable(p) && ServingRemove(id, form, p) && ThreadOk(lang, d, p)
    requires Vetted(RemoveRequest(id, form), uid, d, p)
    ensures Frames(lang, RemoveRequest(id, form), uid, d, Section(lang, d, p, c).0)
  {
    hide Section, MayUse;
    if p.RemoveLocked? {
      RemovalFrames(lang, d, p, c);
    } else {
      RemoveChecks(lang, d, p, c);
      ReaderRecords(lang, d, p, c);
    }
  }

  lemma RemovalFrames(lang: Language, d: Shared, p: Phase, c: Choice)
    requires p.RemoveLocked? && ThreadOk(lang, d, p)
    ensures var d' := Section(lang, d, p, c).0;
      d'.records == d.records || (p.form == Verified && p.id in d.records && d'.records == d.records - {p.id})
  {
    hide AddPart, RewritePart, SocketPart, StoredPart, ReplyPart, ActiveDebug;
  }

  lemma ConnectFrames(lang: Language, id: ConnectionId, debug: bool, reason: Reason, d: Shared, p: Phase, c: Choice)
    requires Runnable(p) && ServingConnect(id, debug, reason, d, p) && DataOk(lang, d)
    ensures var d' := Section(lang, d, p, c).0;
      d'.records == d.records || (reason.User? && OnlyFlag(d, d', id, false))
  {
    hide DataOk, Section;
    if p.ConnectIntent? {
      IntentFrames(lang, d, p, c);
    } else {
      UpServes(lang, d, p, c, id);
    }
  }

  lemma IntentFrames(lang: Language, d: Shared, p: Phase, c: Choice)
    requires p.ConnectIntent? && DataOk(lang, d)
    ensures var d' := Section(lang, d, p, c).0;
      d'.records == d.records || (p.reason.User? && OnlyFlag(d, d', p.id, false))
  {
    hide DataOk, RecordOk;
    if p.id in d.records {
      StoredRecord(lang, d, p.id);
      RecordId(lang, d, p.id);
    }
  }

  lemma DisconnectFrames(lang: Language, id: ConnectionId, byUser: bool, d: Shared, p: Phase, c: Choice)
    requires Runnable(p) && ServingDisconnect(id, byUser, d, p) && DataOk(lang, d)
    ensures var d' := Section(lang, d, p, c).0;
      d'.records == d.records || (byUser && OnlyFlag(d, d', id, true))
  {
    hide DataOk, Section;
    if p.DisconnectMark? {
      MarkFrames(lang, d, p, c);
    } else {
      ReaderRecords(lang, d, p, c);
    }
  }

  lemma MarkFrames(lang: Language, d: Shared, p: Phase, c: Choice)
    requires p.DisconnectMark? && DataOk(lang, d)
    ensures var d' := Section(lang, d, p, c).0;
      d'.records == d.records || (p.byUser && OnlyFlag(d, d', p.id, true))
  {
    hide DataOk, RecordOk;
    if p.id in d.records {
      StoredRecord(lang, d, p.id);
      RecordId(lang, d, p.id);
    }
  }

  lemma EditFrames(lang: Language, id: ConnectionId, edit: Edit, uid: nat, d: Shared, p: Phase, c: Choice)
    requires Runnable(p) && ServingEdit(id, edit, p) && p.EditLocked? && p.uid == uid && DataOk(lang, d) && Lawful(lang)
    ensures Frames(lang, EditRequest(id, edit), uid, d, Section(lang, d, p, c).0)
  {
    hide DataOk, Lawful, Section, EditSection, Set;
    EditServes(lang, id, edit, d, p, c);
    EditIsSection(lang, d, p, c);
    EditSectionRefuses(lang, d, id, edit, uid);
  }

  lemma ReadingFrames(lang: Language, request: Request, d: Shared, p: Phase, c: Choice)
    requires Runnable(p) && AtWork(lang, request, d, p) && (request.ReconnectRequest? || request.SweepRequest?)
    ensures Section(lang, d, p, c).0.records == d.records
  {
    hide Section, Fresh;
    ReaderRecords(lang, d, p, c);
  }

  /** Every own section writes what its request asks for, or nothing. */
  lemma SectionFrames(lang: Language, request: Request, uid: nat, d: Shared, p: Phase, c: Choice)
    requires DataOk(lang, d) && Lawful(lang) && ThreadOk(lang, d, p) && Runnable(p)
    requires AtWork(lang, request, d, p) && Vetted(request, uid, d, p)
    ensures Frames(lang, request, uid, d, Section(lang, d, p, c).0)
  {
    hide DataOk, Lawful, ThreadOk, Section, ServingAdd, ServingRefresh, ServingConnect, ServingDisconnect;
    hide ServingReconnect, ServingSweep, ServingRemove, MayUse;
    if request.AddRequest? {
      AddFrames(lang, request.add, uid, d, p, c);
    } else if request.RefreshRequest? {
      RefreshFrames(lang, request.id, request.text, request.source, request.form, uid, d, p, c);
    } else if request.RemoveRequest? {
      RemoveFrames(lang, request.id, request.form, uid, d, p, c);
    } else if request.ConnectRequest? {
      ConnectFrames(lang, request.id, request.debug, request.reason, d, p, c);
    } else if request.BootRequest? {
      ConnectFrames(lang, request.id, false, Reconciliation, d, p, c);
    } else if request.DisconnectRequest? {
      DisconnectFrames(lang, request.id, request.byUser, d, p, c);
    } else if request.EditRequest? {
      EditFrames(lang, request.id, request.edit, uid, d, p, c);
    } else {
      ReadingFrames(lang, request, d, p, c);
    }
  }

  // ---- other connections ----------------------------------------------------------------------------

  /** Markers, sockets and helpers of every other connection's interface are as they were. */
  ghost predicate OthersRun(d: Shared, d': Shared, id: ConnectionId) {
    && (forall other :: other != id ==> SameMarker(d, d', other))
    && (forall i :: i != InterfaceName(id) ==>
          (i in d.sockets <==> i in d'.sockets) && (i in d.sockets ==> d'.sockets[i] == d.sockets[i]))
    && (forall n: nat :: n < |d.launches| && d.launches[n].interface != InterfaceName(id) ==>
          (n in d.live <==> n in d'.live))
    && d.launches <= d'.launches
    && (forall n :: |d.launches| <= n < |d'.launches| ==> d'.launches[n].id == id)
  }

  lemma UpOthersRun(lang: Language, d: Shared, p: Phase, c: Choice)
    requires StoredOf(p).Some? && Runnable(p) && LiveOk(d)
    requires StoredOf(p).value.interface == InterfaceName(StoredOf(p).value.id)
    ensures OthersRun(d, Section(lang, d, p, c).0, StoredOf(p).value.id)
  {
    hide HelperOn;
  }

  lemma DownOthersRun(lang: Language, d: Shared, p: Phase, c: Choice)
    requires p.DownRun? || p.DownClear? || p.SweepRun? || p.SweepLocked?
    ensures OthersRun(d, Section(lang, d, p, c).0, p.id)
  {
    hide HelperOn;
  }

  lemma StillOthersRun(lang: Language, d: Shared, p: Phase, c: Choice, id: ConnectionId)
    requires Runnable(p) && StoredOf(p).None? && !p.DownRun? && !p.DownClear? && !p.SweepRun? && !p.SweepLocked?
    ensures OthersRun(d, Section(lang, d, p, c).0, id)
  {
    hide Section;
    StillRuntime(lang, d, p, c);
  }

  lemma StillRuntime(lang: Language, d: Shared, p: Phase, c: Choice)
    requires Runnable(p) && StoredOf(p).None? && !p.DownRun? && !p.DownClear? && !p.SweepRun? && !p.SweepLocked?
    ensures var d' := Section(lang, d, p, c).0;
      d'.markers == d.markers && d'.sockets == d.sockets && d'.live == d.live && d'.launches == d.launches
  {
    hide Section, AddSection;
    if p.AddIndexed? {
      AddIsSection(lang, d, p, c);
      AddRuntime(lang, d, p.add, c);
    } else {
      OtherRuntime(lang, d, p, c);
    }
  }

  lemma AddRuntime(lang: Language, d: Shared, a: Add, c: Choice)
    ensures var d' := AddSection(lang, d, a, c).0;
      d'.markers == d.markers && d'.sockets == d.sockets && d'.live == d.live && d'.launches == d.launches
  {
    hide NameTaken, FoundIdentity, NewRecord, Resubmitted, Effective;
  }

  lemma OtherRuntime(lang: Language, d: Shared, p: Phase, c: Choice)
    requires Runnable(p) && !p.AddIndexed?
    requires StoredOf(p).None? && !p.DownRun? && !p.DownClear? && !p.SweepRun? && !p.SweepLocked?
    ensures var d' := Section(lang, d, p, c).0;
      d'.markers == d.markers && d'.sockets == d.sockets && d'.live == d.live && d'.launches == d.launches
  {
    hide Section;
    if p.RefreshLocked? || p.RefreshAuthed? || p.UpLoad? || p.ConnectIntent? || p.EditLocked? {
      LongRuntime(lang, d, p, c);
    } else {
      ShortRuntime(lang, d, p, c);
    }
  }

  lemma LongRuntime(lang: Language, d: Shared, p: Phase, c: Choice)
    requires p.RefreshLocked? || p.RefreshAuthed? || p.UpLoad? || p.ConnectIntent? || p.EditLocked?
    ensures var d' := Section(lang, d, p, c).0;
      d'.markers == d.markers && d'.sockets == d.sockets && d'.live == d.live && d'.launches == d.launches
  {
    hide Reparses, Refreshed, FoundIdentity, Effective, Authorized, Elevates, AuthReply;
  }

  lemma ShortRuntime(lang: Language, d: Shared, p: Phase, c: Choice)
    requires Runnable(p) && !p.AddIndexed?
    requires StoredOf(p).None? && !p.DownRun? && !p.DownClear? && !p.SweepRun? && !p.SweepLocked?
    requires !p.RefreshLocked? && !p.RefreshAuthed? && !p.UpLoad? && !p.ConnectIntent? && !p.EditLocked?
    ensures var d' := Section(lang, d, p, c).0;
      d'.markers == d.markers && d'.sockets == d.sockets && d'.live == d.live && d'.launches == d.launches
  {
    hide Authorized, AuthReply, AddSection, RefreshSection, EditSection, IntentSection, UpLoadSection;
  }

  /** Every own section leaves the tunnels of all other connections alone. */
  lemma SectionOthersRun(lang: Language, request: Request, d: Shared, p: Phase, c: Choice)
    requires DataOk(lang, d) && ThreadOk(lang, d, p) && Runnable(p) && AtWork(lang, request, d, p)
    ensures forall id :: Subject(request).None? || Subject(request) == Some(id) ==>
      OthersRun(d, Section(lang, d, p, c).0, id)
  {
    hide DataOk, Section, OthersRun, AddPart, AccessPart, RewritePart, SocketPart, ReplyPart, RecordOk, Replaced,
      DenotedBy, Fresh, AsAsked, AsSubmitted, ServingRefresh, ServingConnect, ServingDisconnect, ServingReconnect;
    if Relies(p) && Subject(request).Some? {
      ReliesOnLock(lang, request, d, p);
    }
    AddsRely(lang, request, d, p);
    forall id | Subject(request).None? || Subject(request) == Some(id)
      ensures OthersRun(d, Section(lang, d, p, c).0, id)
    {
      if StoredOf(p).Some? {
        StoredRecord(lang, d, id);
        RecordNamed(lang, d, id);
        LiveData(lang, d);
        UpOthersRun(lang, d, p, c);
      } else if p.DownRun? || p.DownClear? || p.SweepRun? || p.SweepLocked? {
        DownOthersRun(lang, d, p, c);
      } else {
        StillOthersRun(lang, d, p, c, id);
      }
    }
  }

  lemma AddsRely(lang: Language, request: Request, d: Shared, p: Phase)
    requires AtWork(lang, request, d, p)
    ensures Subject(request).None? ==> !Relies(p) && !p.SweepRun? && !p.SweepLocked?
    ensures (p.SweepRun? || p.SweepLocked?) ==> Subject(request) == Some(p.id)
  {
    hide Replaced, DenotedBy, Fresh, AsAsked, AsSubmitted;
  }

  lemma LiveData(lang: Language, d: Shared)
    requires DataOk(lang, d)
    ensures LiveOk(d)
  {
  }

  // ---- whole runs -----------------------------------------------------------------------------------

  lemma FinishedWritesNothing(lang: Language, d: Shared, p: Phase, c: Choice)
    requires p.Done?
    ensures Section(lang, d, p, c).0 == d
  {
  }

  /** In every run, each step of a thread that serves a request stays within the request's frame. */
  lemma OwnStepsFrame(lang: Language, start: State, steps: seq<Step>, i: nat, j: nat, t: nat)
    requires Lawful(lang) && Init(start) && Possible(lang, start, steps) && Serves(steps, i, j, t)
    requires j < |steps| && steps[j].Run? && steps[j].thread == t
    ensures Frames(lang, steps[i].request, steps[i].uid, StateAt(lang, start, steps, j).shared,
                   StateAt(lang, start, steps, j + 1).shared)
    ensures forall id :: Subject(steps[i].request).None? || Subject(steps[i].request) == Some(id) ==>
      OthersRun(StateAt(lang, start, steps, j).shared, StateAt(lang, start, steps, j + 1).shared, id)
  {
    hide Lawful, DataOk, ThreadOk, Section, AtWork, Vetted, Frames, Exclusive, Init, OthersRun;
    var s, c := StateAt(lang, start, steps, j), steps[j].choice;
    StepAt(lang, start, steps, j);
    InitOk(lang, start);
    InvAt(lang, start, steps, j);
    ServedAt(lang, start, steps, i, j, t);
    VettedAt(lang, start, steps, i, j, t);
    if PhaseOf(s, t).Done? {
      FinishedWritesNothing(lang, s.shared, PhaseOf(s, t), c);
      SameFrames(lang, steps[i].request, steps[i].uid, s.shared, StateAt(lang, start, steps, j + 1).shared);
    } else {
      assert ThreadOk(lang, s.shared, s.threads[t]);
      SectionFrames(lang, steps[i].request, steps[i].uid, s.shared, s.threads[t], c);
      SectionOthersRun(lang, steps[i].request, s.shared, s.threads[t], c);
    }
  }

  lemma SameFrames(lang: Language, request: Request, uid: nat, d: Shared, d': Shared)
    requires d' == d
    ensures Frames(lang, request, uid, d, d') && forall id :: OthersRun(d, d', id)
  {
  }

  /** Requests that may write no record: above all a disconnect that is not the user's. */
  predicate WritesNothing(request: Request) {
    || (request.DisconnectRequest? && !request.byUser)
    || (request.ConnectRequest? && request.reason.Reconciliation?)
    || request.BootRequest? || request.ReconnectRequest? || request.SweepRequest?
  }

  /**
    No step of a thread that serves a disconnect for a session's end, a
    reconciliation, a reconnect or a sweep changes any record, in every
    interleaving and however the request ends.
   */
  lemma ReadersKeepRecords(lang: Language, start: State, steps: seq<Step>, i: nat, j: nat, t: nat)
    requires Lawful(lang) && Init(start) && Possible(lang, start, steps) && Serves(steps, i, j, t)
    requires j < |steps| && steps[j].Run? && steps[j].thread == t && WritesNothing(steps[i].request)
    ensures StateAt(lang, start, steps, j + 1).shared.records == StateAt(lang, start, steps, j).shared.records
  {
    hide Lawful, Enabled, Apply, Init;
    OwnStepsFrame(lang, start, steps, i, j, t);
  }
}
