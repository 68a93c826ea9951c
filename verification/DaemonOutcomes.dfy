/**
  What a reply means, whatever the other threads do meanwhile: when a request is
  answered, some step of its own under its locks did what was asked. `Serving`
  follows a request through its phases, `Means` says what an answer vouches for.
 */
module DaemonOutcomes {
  import opened Wrappers
  import opened BypassLinks
  import opened Records
  import opened Daemon
  import opened DaemonInvariant
  import opened DaemonEffects
  import opened DaemonSections
  import opened DaemonSafety
  import opened DaemonGuarantees
  import opened DaemonRuns
  import opened DaemonDisconnect

  // ---- what was asked ---------------------------------------------------------------------------

  /** The record has the identity of the submitted configuration and the metadata the request names. */
  predicate AsAsked(lang: Language, a: Add, r: Record) {
    var parsed := lang.parse(Effective(lang, a.text, a.mtu));
    && parsed.Some? && r.fingerprint == lang.fingerprint(parsed.value) && r.global == a.global && r.owner == a.owner
    && r.mode == a.mode && (a.name.Some? ==> r.name == a.name) && (a.source.Some? ==> r.sourcePath == a.source)
  }

  /** A new record: the submission and nothing else. */
  predicate AsSubmitted(lang: Language, a: Add, r: Record) {
    && AsAsked(lang, a, r) && a.form == Verified
    && r.rawConf == (if a.mtu.None? then a.text else lang.withMtu(a.text, a.mtu.value))
    && lang.parse(r.rawConf) == Some(r.config)
    && r.name == a.name && r.sourcePath == a.source && r.mtuOverride == a.mtu
    && r.links == [] && !r.userDisconnected && !r.dnsDynamicStore
  }

  /** The record has the identity the refreshed text denotes. */
  predicate DenotedBy(lang: Language, r: Record, text: string) {
    var parsed := lang.parse(Effective(lang, text, r.mtuOverride));
    parsed.Some? && lang.fingerprint(parsed.value) == r.fingerprint
  }

  /** The record's configuration is the refreshed text. */
  predicate Replaced(lang: Language, r: Record, text: string, source: Option<string>) {
    && DenotedBy(lang, r, text)
    && r.rawConf == (if r.mtuOverride.None? then text else lang.withMtu(text, r.mtuOverride.value))
    && lang.parse(r.rawConf) == Some(r.config)
    && (source.Some? ==> r.sourcePath == source)
  }

  /** The setting was changed as asked and nothing else, except that a change to Automatic clears the flag. */
  predicate Set(lang: Language, edit: Edit, r: Record, r': Record) {
    match edit
    case SetMode(mode, form) =>
      && r' == r.(mode := mode, userDisconnected := r'.userDisconnected)
      && (r'.userDisconnected <==> r.userDisconnected && !(mode == Automatic && r.mode == Manual))
      && (r.global && r.mode == Manual && mode == Automatic ==> form == Verified)
    case SetDns(enabled) => r' == r.(dnsDynamicStore := enabled)
    case SetLinks(links) =>
      r' == r.(links := r'.links) && lang.validate(links, r.config) == Some(r'.links)
        && lang.validLinks(r'.links, r'.config)
  }

  /** A helper of exactly the stored configuration was launched, and the marker names it. */
  predicate UpFresh(d: Shared, id: ConnectionId) {
    && id in d.records && d.records[id].id == id && MarkedCurrent(d, d.records[id])
    && var n, r := d.markers[id].socket, d.records[id];
       d.launches[n] == Launch(id, InterfaceName(id), r.fingerprint, r.rawConf, r.links)
  }

  // ---- what the answers mean ----------------------------------------------------------------------

  predicate Added(lang: Language, a: Add, id: ConnectionId, d: Shared, d': Shared) {
    && id in d'.records && AsAsked(lang, a, d'.records[id])
    && d'.records == d.records[id := d'.records[id]]
    && if id in d.records then SameFixed(d.records[id], d'.records[id])
       else id !in d.created && AsSubmitted(lang, a, d'.records[id])
  }

  predicate RefreshMeans(
      lang: Language, id: ConnectionId, text: string, source: Option<string>, form: Form, d: Shared, p: Phase,
      d': Shared)
  {
    && id in d.records && id in d'.records && d'.records == d.records[id := d'.records[id]]
    && DenotedBy(lang, d'.records[id], text) && (source.Some? ==> d'.records[id].sourcePath == source)
    && lang.validLinks(d'.records[id].links, d'.records[id].config)
    && if p.RefreshWrite? || p.UpOk? then
         && form == Verified && Replaced(lang, d'.records[id], text, source)
         && (p.RefreshWrite? ==> RewritesLinks(lang, d.records[id], d'.records[id]))
         && (p.UpOk? ==> UpFresh(d', id))
       else
         d'.records[id] == d.records[id].(sourcePath := d'.records[id].sourcePath)
  }

  /** Besides its configuration, source path and links the record keeps everything; the links are pruned. */
  predicate RewritesLinks(lang: Language, r: Record, r': Record) {
    && r' == r.(fingerprint := r'.fingerprint, config := r'.config, rawConf := r'.rawConf,
                sourcePath := r'.sourcePath, links := r'.links)
    && r'.links == lang.prune(r.links, r'.config)
  }

  /** Either a reconciliation found the user's disconnect, or the marked helper has the record's configuration. */
  predicate ConnectMeans(lang: Language, id: ConnectionId, reason: Reason, d: Shared, p: Phase, d': Shared) {
    && d' == d && id in d.records && HoldsConnection(p) == Some(id)
    && if p.ConnectIntent? then reason == Reconciliation && d.records[id].userDisconnected
       else
         && !d.records[id].userDisconnected && d.records[id].id == id && MarkedCurrent(d, d.records[id])
         && LaunchOk(lang, d.launches[d.markers[id].socket])
  }

  predicate DisconnectMeans(id: ConnectionId, byUser: bool, d: Shared, d': Shared) {
    && id in d.records && d'.records == d.records && (byUser ==> d.records[id].userDisconnected)
    && id !in d'.markers && Quiet(d', id)
  }

  /** The marker names a socket of the connection that is there. */
  predicate LooksUp(d: Shared, id: ConnectionId) {
    id in d.markers && InterfaceName(id) in d.sockets
  }

  /** Removed with a verified form and not while it looked up, unless the stat failed; busy only if it looked up. */
  predicate RemoveMeans(id: ConnectionId, form: Form, c: Choice, reply: Reply, d: Shared, d': Shared) {
    && (reply == Unit ==>
          && form == Verified && (c.statFails || !LooksUp(d, id))
          && id in d.records && d'.records == d.records - {id} && d'.markers == d.markers)
    && (reply == Busy ==> d' == d && LooksUp(d, id))
  }

  /** Exactly the marker of a stored, readable connection goes, unless its socket has a live helper. */
  predicate SweepMeans(id: ConnectionId, d: Shared, d': Shared) {
    var spared := InterfaceName(id) in d.sockets && d.sockets[InterfaceName(id)] in d.live;
    && d'.records == d.records
    && d'.markers == if id in d.records && id !in d.unreadable && !spared then d.markers - {id} else d.markers
  }

  predicate EditMeans(lang: Language, id: ConnectionId, edit: Edit, reply: Reply, d: Shared, d': Shared) {
    && (reply == Unit ==>
          && id in d.records && id in d'.records && d'.records == d.records[id := d'.records[id]]
          && Set(lang, edit, d.records[id], d'.records[id]))
    && (reply == InvalidLink ==>
          && d' == d && id in d.records && edit.SetLinks?
          && lang.validate(edit.links, d.records[id].config).None?)
  }

  /** What the step that answers a request with `reply` did, from `d` in phase `p` to `d'`. */
  predicate Means(lang: Language, request: Request, c: Choice, reply: Reply, d: Shared, p: Phase, d': Shared) {
    match request
    case AddRequest(a) => reply.Id? ==> Added(lang, a, reply.id, d, d')
    case RefreshRequest(id, text, source, form) =>
      reply == Unit ==> RefreshMeans(lang, id, text, source, form, d, p, d')
    case RemoveRequest(id, form) => RemoveMeans(id, form, c, reply, d, d')
    case ConnectRequest(id, _, reason) => reply == Unit ==> ConnectMeans(lang, id, reason, d, p, d')
    case BootRequest(id) => reply == Unit ==> ConnectMeans(lang, id, Reconciliation, d, p, d')
    case DisconnectRequest(id, byUser) => reply == Unit ==> DisconnectMeans(id, byUser, d, d')
    case ReconnectRequest(id) => reply == Unit ==> UpFresh(d', id) && d'.records == d.records
    case EditRequest(id, edit) =>
      && EditMeans(lang, id, edit, reply, d, d')
      && (reply == Unit ==> p.EditLocked? && MayUse(d.records[id], p.uid))
    case SweepRequest(id) => reply == Unit ==> SweepMeans(id, d, d')
  }

  // ---- the phases of a request ----------------------------------------------------------------------

  /** `connection_ops::connect` is at work for this connection. */
  predicate GoingUp(p: Phase, id: ConnectionId) {
    (p.UpLoad? && p.id == id) || (StoredOf(p).Some? && StoredOf(p).value.id == id)
  }

  /** `connection_ops::disconnect` is at work for this connection. */
  predicate GoingDown(p: Phase, id: ConnectionId) {
    (p.DownLoad? || p.DownWantNetwork? || p.DownRun? || p.DownClear?) && p.id == id
  }

  /** A connect that follows a teardown finds no socket and launches what is stored. */
  predicate Fresh(lang: Language, d: Shared, p: Phase) {
    match p
    case UpLoad(id, _) => id in d.records ==> InterfaceName(id) !in d.sockets
    case UpWantClear(_, _) => false
    case UpClear(_, _) => false
    case UpCheck(stored, _) => InterfaceName(stored.id) !in d.sockets
    case UpPost(stored, _, n) => Launched(lang, d, stored, n)
    case UpSave(stored, m) => Launched(lang, d, stored, m.socket)
    case UpOk(stored) => stored.id in d.markers && Launched(lang, d, stored, d.markers[stored.id].socket)
    case _ => true
  }

  predicate Launched(lang: Language, d: Shared, stored: Record, n: nat) {
    && n < |d.launches|
    && d.launches[n] == Launch(stored.id, stored.interface, stored.fingerprint, stored.rawConf,
                               lang.admitted(stored.links, stored.config))
  }

  predicate ServingAdd(lang: Language, a: Add, p: Phase) {
    || p == AddWantIndex(a) || p == AddIndexed(a)
    || ((p.AddWantConn? || p.AddHaveConn?) && AsAsked(lang, a, p.next))
    || (p.AddCreate? && AsSubmitted(lang, a, p.next))
  }

  /** The record a refresh is going to write. */
  predicate Rewriting(lang: Language, d: Shared, id: ConnectionId, text: string, source: Option<string>, p: Phase) {
    && RewriteOf(p).Some? && RewriteOf(p).value.id == id && Replaced(lang, RewriteOf(p).value, text, source)
    && id in d.records && RewriteOf(p).value.links == lang.prune(d.records[id].links, RewriteOf(p).value.config)
    && (p.RefreshWrite? && p.wasActive.Some? ==> InterfaceName(id) !in d.sockets)
  }

  predicate ServingRefresh(
      lang: Language, id: ConnectionId, text: string, source: Option<string>, form: Form, d: Shared, p: Phase)
  {
    || (p.RefreshWantIndex? && p == RefreshWantIndex(id, text, source, form, p.uid))
    || (p.RefreshWantConn? && p == RefreshWantConn(id, text, source, form, p.uid))
    || (p.RefreshLocked? && p == RefreshLocked(id, text, source, form, p.uid))
    || (p.RefreshTouch? && p.next.id == id && p.next.sourcePath == source && DenotedBy(lang, p.next, text))
    || (form == Verified && Rewriting(lang, d, id, text, source, p))
    || (form == Verified && GoingUp(p, id) && Fresh(lang, d, p)
        && (id in d.records ==> Replaced(lang, d.records[id], text, source)))
  }

  predicate ServingConnect(id: ConnectionId, debug: bool, reason: Reason, d: Shared, p: Phase) {
    || (p.ConnectWantConn? && p == ConnectWantConn(id, debug, reason, p.uid))
    || (p.ConnectIntent? && p == ConnectIntent(id, debug, reason, p.uid))
    || (GoingUp(p, id) && (id in d.records ==> !d.records[id].userDisconnected))
  }

  predicate ServingDisconnect(id: ConnectionId, byUser: bool, d: Shared, p: Phase) {
    || (p.DisconnectWantConn? && p == DisconnectWantConn(id, byUser, p.uid))
    || (p.DisconnectMark? && p == DisconnectMark(id, byUser, p.uid))
    || (GoingDown(p, id) && p.then_.Finish? && (byUser && id in d.records ==> d.records[id].userDisconnected))
  }

  predicate ServingReconnect(lang: Language, id: ConnectionId, d: Shared, p: Phase) {
    || (p.ReconnectWantConn? && p.id == id) || (p.ReconnectLocked? && p.id == id)
    || (GoingDown(p, id) && p.then_.Reconnect?)
    || (GoingUp(p, id) && Fresh(lang, d, p))
  }

  predicate ServingRemove(id: ConnectionId, form: Form, p: Phase) {
    || (p.RemoveWantIndex? && p == RemoveWantIndex(id, form, p.uid))
    || (p.RemoveIndexed? && p == RemoveIndexed(id, form, p.uid))
    || p == RemoveWantConn(id, form) || p == RemoveLocked(id, form)
  }

  predicate ServingEdit(id: ConnectionId, edit: Edit, p: Phase) {
    || (p.EditWantConn? && p == EditWantConn(id, edit, p.uid)) || (p.EditLocked? && p == EditLocked(id, edit, p.uid))
  }

  predicate ServingSweep(id: ConnectionId, p: Phase) {
    p == SweepWantNetwork(id) || p == SweepRun(id) || p == SweepWantConn(id) || p == SweepLocked(id)
  }

  /** The thread is at work on the request, and what the request relies on still holds. */
  predicate AtWork(lang: Language, request: Request, d: Shared, p: Phase) {
    match request
    case AddRequest(a) => ServingAdd(lang, a, p)
    case RefreshRequest(id, text, source, form) => ServingRefresh(lang, id, text, source, form, d, p)
    case RemoveRequest(id, form) => ServingRemove(id, form, p)
    case ConnectRequest(id, debug, reason) => ServingConnect(id, debug, reason, d, p)
    case BootRequest(id) => ServingConnect(id, false, Reconciliation, d, p)
    case DisconnectRequest(id, byUser) => ServingDisconnect(id, byUser, d, p)
    case ReconnectRequest(id) => ServingReconnect(lang, id, d, p)
    case EditRequest(id, edit) => ServingEdit(id, edit, p)
    case SweepRequest(id) => ServingSweep(id, p)
  }

  predicate Serving(lang: Language, request: Request, d: Shared, p: Phase) {
    p.Done? || p.Idle? || AtWork(lang, request, d, p)
  }

  lemma FirstServes(lang: Language, request: Request, uid: nat, d: Shared)
    ensures AtWork(lang, request, d, FirstPhase(request, uid))
  {
  }

  lemma AcquiredServes(lang: Language, request: Request, d: Shared, p: Phase)
    requires Wants(p).Some? && AtWork(lang, request, d, p)
    ensures AtWork(lang, request, d, Acquired(p))
  {
    hide Acquired, Wants, ServingRefresh, ServingConnect, ServingReconnect, AsAsked, AsSubmitted;
    if request.RefreshRequest? {
      RefreshAcquires(lang, request.id, request.text, request.source, request.form, d, p);
    } else if request.ConnectRequest? {
      ConnectAcquires(request.id, request.debug, request.reason, d, p);
    } else if request.BootRequest? {
      ConnectAcquires(request.id, false, Reconciliation, d, p);
    } else if request.ReconnectRequest? {
      ReconnectAcquires(lang, request.id, d, p);
    } else {
      OtherAcquires(lang, request, d, p);
    }
  }

  lemma RefreshAcquires(
      lang: Language, id: ConnectionId, text: string, source: Option<string>, form: Form, d: Shared, p: Phase)
    requires Wants(p).Some? && ServingRefresh(lang, id, text, source, form, d, p)
    ensures ServingRefresh(lang, id, text, source, form, d, Acquired(p))
  {
    hide Replaced, DenotedBy, Launched;
  }

  lemma ConnectAcquires(id: ConnectionId, debug: bool, reason: Reason, d: Shared, p: Phase)
    requires Wants(p).Some? && ServingConnect(id, debug, reason, d, p)
    ensures ServingConnect(id, debug, reason, d, Acquired(p))
  {
    hide GoingUp;
    if GoingUp(p, id) {
      UpAcquires(p, id);
    }
  }

  lemma UpAcquires(p: Phase, id: ConnectionId)
    requires Wants(p).Some? && GoingUp(p, id)
    ensures GoingUp(Acquired(p), id)
  {
  }

  lemma ReconnectAcquires(lang: Language, id: ConnectionId, d: Shared, p: Phase)
    requires Wants(p).Some? && ServingReconnect(lang, id, d, p)
    ensures ServingReconnect(lang, id, d, Acquired(p))
  {
    hide Launched;
  }

  lemma OtherAcquires(lang: Language, request: Request, d: Shared, p: Phase)
    requires Wants(p).Some? && AtWork(lang, request, d, p)
    requires !request.RefreshRequest? && !request.ConnectRequest? && !request.BootRequest? && !request.ReconnectRequest?
    ensures AtWork(lang, request, d, Acquired(p))
  {
    hide AsAsked, AsSubmitted;
  }

  // ---- other threads --------------------------------------------------------------------------------

  /** Nothing the owner of the connection's lock relies on has changed. */
  predicate Untouched(d: Shared, d': Shared, id: ConnectionId) {
    && SameRecord(d, d', id) && SameMarker(d, d', id) && d.launches <= d'.launches
    && (id in d.records && InterfaceName(id) in d'.sockets ==> InterfaceName(id) in d.sockets)
  }

  /** The phases that rely on more than the request says. */
  predicate Relies(p: Phase) {
    p.UpLoad? || StoredOf(p).Some? || p.DownLoad? || p.DownWantNetwork? || p.DownRun? || p.DownClear?
      || RewriteOf(p).Some?
  }

  lemma UpStable(lang: Language, d: Shared, d': Shared, p: Phase, id: ConnectionId)
    requires GoingUp(p, id) && Untouched(d, d', id) && Fresh(lang, d, p)
    requires StoredOf(p).Some? ==> id in d.records
    ensures Fresh(lang, d', p)
  {
  }

  lemma RefreshStays(
      lang: Language, id: ConnectionId, text: string, source: Option<string>, form: Form, d: Shared, d': Shared,
      p: Phase)
    requires ServingRefresh(lang, id, text, source, form, d, p) && StoredPart(d, p)
    requires Relies(p) ==> Untouched(d, d', id)
    ensures ServingRefresh(lang, id, text, source, form, d', p)
  {
    hide Replaced, DenotedBy, Fresh;
    if GoingUp(p, id) && Fresh(lang, d, p) {
      UpStable(lang, d, d', p, id);
    }
  }

  lemma ConnectStays(id: ConnectionId, debug: bool, reason: Reason, d: Shared, d': Shared, p: Phase)
    requires ServingConnect(id, debug, reason, d, p) && (Relies(p) ==> Untouched(d, d', id))
    ensures ServingConnect(id, debug, reason, d', p)
  {
  }

  lemma DisconnectStays(id: ConnectionId, byUser: bool, d: Shared, d': Shared, p: Phase)
    requires ServingDisconnect(id, byUser, d, p) && (Relies(p) ==> Untouched(d, d', id))
    ensures ServingDisconnect(id, byUser, d', p)
  {
  }

  lemma ReconnectStays(lang: Language, id: ConnectionId, d: Shared, d': Shared, p: Phase)
    requires ServingReconnect(lang, id, d, p) && StoredPart(d, p) && (Relies(p) ==> Untouched(d, d', id))
    ensures ServingReconnect(lang, id, d', p)
  {
    hide Fresh;
    if GoingUp(p, id) && Fresh(lang, d, p) {
      UpStable(lang, d, d', p, id);
    }
  }

  /** The connection whose lock protects what the request relies on. */
  function Subject(request: Request): Option<ConnectionId> {
    match request
    case AddRequest(_) => None
    case RefreshRequest(id, _, _, _) => Some(id)
    case RemoveRequest(id, _) => Some(id)
    case ConnectRequest(id, _, _) => Some(id)
    case DisconnectRequest(id, _) => Some(id)
    case ReconnectRequest(id) => Some(id)
    case EditRequest(id, _) => Some(id)
    case SweepRequest(id) => Some(id)
    case BootRequest(id) => Some(id)
  }

  lemma AtWorkStable(lang: Language, request: Request, d: Shared, d': Shared, p: Phase)
    requires AtWork(lang, request, d, p) && StoredPart(d, p)
    requires Relies(p) && Subject(request).Some? ==> Untouched(d, d', Subject(request).value)
    ensures AtWork(lang, request, d', p)
  {
    hide ServingRefresh, ServingConnect, ServingDisconnect, ServingReconnect, Relies, Untouched, StoredPart;
    match request
    case RefreshRequest(id, text, source, form) => RefreshStays(lang, id, text, source, form, d, d', p);
    case ConnectRequest(id, debug, reason) => ConnectStays(id, debug, reason, d, d', p);
    case BootRequest(id) => ConnectStays(id, false, Reconciliation, d, d', p);
    case DisconnectRequest(id, byUser) => DisconnectStays(id, byUser, d, d', p);
    case ReconnectRequest(id) => ReconnectStays(lang, id, d, d', p);
    case _ =>
  }

  lemma OthersLeave(lang: Language, s: State, step: Step, t: nat, id: ConnectionId)
    requires Inv(lang, s) && Lawful(lang) && Enabled(s, step) && !(step.Run? && step.thread == t)
    requires t in s.threads && HoldsConnection(s.threads[t]) == Some(id) && id in s.shared.created
    ensures Untouched(s.shared, Apply(lang, s, step).shared, id)
  {
    hide DataOk, ThreadsOk, Lawful, Section, Disjoint, HoldsConnection, EnvironmentStep, RecordOk, HelperOn,
      Daemon.Accepted, Wants;
    var d' := Apply(lang, s, step).shared;
    StepGuarantee(lang, s, step);
    if step.Run? {
      assert Holds(s.threads[t], Connection(id));
      DisjointMeans(s.threads[t], s.threads[step.thread], Connection(id));
    }
    assert SameRecord(s.shared, d', id) && SameMarker(s.shared, d', id);
    if id in s.shared.records {
      QuietData(lang, s.shared);
      InterfaceStable(s.shared, d', StepLocks(s, step), id);
    }
  }

  lemma QuietData(lang: Language, d: Shared)
    requires DataOk(lang, d)
    ensures InterfacesApart(d) && LiveOk(d)
  {
    DistinctInterfaces(lang, d);
  }

  // ---- own sections ---------------------------------------------------------------------------------

  /** What an own section must achieve: the request goes on, or its answer means what it says. */
  predicate GoesOnOrAnswers(lang: Language, request: Request, c: Choice, d: Shared, p: Phase, r: (Shared, Phase)) {
    AtWork(lang, request, r.0, r.1) || (r.1.Done? && Means(lang, request, c, r.1.reply, d, p, r.0))
  }

  lemma AddListed(lang: Language, d: Shared, a: Add, c: Choice)
    requires DataOk(lang, d)
    ensures GoesOnOrAnswers(lang, AddRequest(a), c, d, AddIndexed(a), AddSection(lang, d, a, c))
  {
    hide DataOk, NameTaken;
    if c.id in d.records {
      StoredRecord(lang, d, c.id);
    }
  }

  lemma AddServes(lang: Language, a: Add, d: Shared, p: Phase, c: Choice)
    requires DataOk(lang, d) && ThreadOk(lang, d, p) && Runnable(p) && ServingAdd(lang, a, p)
    ensures GoesOnOrAnswers(lang, AddRequest(a), c, d, p, Section(lang, d, p, c))
  {
    hide DataOk, ThreadOk, AddSection, Section, Means;
    if p.AddIndexed? {
      AddIsSection(lang, d, p, c);
      AddListed(lang, d, a, c);
    } else {
      AddWrites(lang, a, d, p, c);
    }
  }

  lemma AddWrites(lang: Language, a: Add, d: Shared, p: Phase, c: Choice)
    requires ThreadOk(lang, d, p) && ServingAdd(lang, a, p) && (p.AddHaveConn? || p.AddCreate?)
    ensures var (d', p') := Section(lang, d, p, c);
      p' == Done(Id(p.next.id)) && Means(lang, AddRequest(a), c, p'.reply, d, p, d')
  {
    hide AsSubmitted, AsAsked, RecordOk, Apart, RewritePart, SocketPart, StoredPart, AccessPart;
    if p.AddCreate? {
      SubmittedIsAsked(lang, a, p.next);
    }
  }

  lemma SubmittedIsAsked(lang: Language, a: Add, r: Record)
    requires AsSubmitted(lang, a, r)
    ensures AsAsked(lang, a, r)
  {
  }

  lemma RemoveServes(lang: Language, id: ConnectionId, form: Form, d: Shared, p: Phase, c: Choice)
    requires ThreadOk(lang, d, p) && Runnable(p) && ServingRemove(id, form, p)
    ensures GoesOnOrAnswers(lang, RemoveRequest(id, form), c, d, p, Section(lang, d, p, c))
  {
    hide ThreadOk, Section;
    if p.RemoveLocked? {
      RemoveAnswers(lang, id, form, d, p, c);
    } else {
      RemoveChecks(lang, d, p, c);
    }
  }

  lemma RemoveChecks(lang: Language, d: Shared, p: Phase, c: Choice)
    requires p.RemoveIndexed?
    ensures var (d', p') := Section(lang, d, p, c);
      p' == RemoveWantConn(p.id, p.form) || (p'.Done? && p'.reply != Unit && p'.reply != Busy)
  {
    hide Authorized;
  }

  lemma RemoveAnswers(lang: Language, id: ConnectionId, form: Form, d: Shared, p: Phase, c: Choice)
    requires ThreadOk(lang, d, p) && p == RemoveLocked(id, form)
    ensures var (d', p') := Section(lang, d, p, c);
      p'.Done? && Means(lang, RemoveRequest(id, form), c, p'.reply, d, p, d')
  {
    hide AddPart, RewritePart, SocketPart, StoredPart, ReplyPart;
  }

  lemma EditServes(lang: Language, id: ConnectionId, edit: Edit, d: Shared, p: Phase, c: Choice)
    requires DataOk(lang, d) && Lawful(lang) && Runnable(p) && ServingEdit(id, edit, p)
    ensures GoesOnOrAnswers(lang, EditRequest(id, edit), c, d, p, Section(lang, d, p, c))
  {
    hide DataOk, Section, EditSection, Lawful, Means;
    EditIsSection(lang, d, p, c);
    EditAnswers(lang, id, edit, d, p, c);
  }

  lemma EditAnswers(lang: Language, id: ConnectionId, edit: Edit, d: Shared, p: Phase, c: Choice)
    requires DataOk(lang, d) && Lawful(lang) && p.EditLocked?
    ensures var (d', p') := EditSection(lang, d, id, edit, p.uid);
      p'.Done? && Means(lang, EditRequest(id, edit), c, p'.reply, d, p, d')
  {
    hide DataOk;
    if id in d.records {
      StoredRecord(lang, d, id);
    }
  }

  lemma SweepServes(lang: Language, id: ConnectionId, d: Shared, p: Phase, c: Choice)
    requires Runnable(p) && ServingSweep(id, p)
    ensures GoesOnOrAnswers(lang, SweepRequest(id), c, d, p, Section(lang, d, p, c))
  {
    hide Section;
    if p.SweepLocked? {
      SweepAnswered(lang, d, p, c);
    } else {
      SweepClears(lang, d, p, c);
    }
  }

  lemma SweepAnswered(lang: Language, d: Shared, p: Phase, c: Choice)
    requires p.SweepLocked?
    ensures var (d', p') := Section(lang, d, p, c); p' == Done(Unit) && SweepMeans(p.id, d, d')
  {
  }

  lemma SweepClears(lang: Language, d: Shared, p: Phase, c: Choice)
    requires p.SweepRun?
    ensures Section(lang, d, p, c).1 == SweepWantConn(p.id)
  {
    hide ClearDead;
  }

  lemma MarkServes(lang: Language, id: ConnectionId, byUser: bool, d: Shared, p: Phase, c: Choice)
    requires p.DisconnectMark? && p == DisconnectMark(id, byUser, p.uid) && (id in d.records ==> d.records[id].id == id)
    ensures var (d', p') := Section(lang, d, p, c);
      p' == Done(Failed) || ServingDisconnect(id, byUser, d', p')
  {
  }

  lemma DisconnectAnswered(d: Shared, p: Phase, id: ConnectionId)
    requires p == DownClear(id, Finish) && AccessPart(d, p) && SocketPart(d, p)
    requires id in d.records
    ensures Quiet(d.(markers := d.markers - {id}), id)
  {
    QuietClears(d, id);
  }

  lemma DisconnectServes(lang: Language, id: ConnectionId, byUser: bool, d: Shared, p: Phase, c: Choice)
    requires DataOk(lang, d) && ThreadOk(lang, d, p) && Runnable(p) && ServingDisconnect(id, byUser, d, p)
    ensures GoesOnOrAnswers(lang, DisconnectRequest(id, byUser), c, d, p, Section(lang, d, p, c))
  {
    hide DataOk, Section, AddPart, RewritePart, StoredPart, ReplyPart, SocketPart, RecordOk, Quiet;
    if p.DisconnectMark? {
      if id in d.records {
        StoredRecord(lang, d, id);
        RecordNamed(lang, d, id);
      }
      MarkServes(lang, id, byUser, d, p, c);
    } else {
      DownServes(lang, d, p, c, id, Then.Finish);
      if p.DownClear? {
        ClearSection(lang, d, p, c);
        DisconnectAnswered(d, p, id);
      }
    }
  }

  lemma ClearSection(lang: Language, d: Shared, p: Phase, c: Choice)
    requires p.DownClear?
    ensures Section(lang, d, p, c) == (d.(markers := d.markers - {p.id}), AfterDown(p.id, p.then_))
  {
    hide AfterDown;
  }

  lemma RecordNamed(lang: Language, d: Shared, id: ConnectionId)
    requires id in d.records && RecordOk(lang, d, id, d.records[id])
    ensures d.records[id].id == id && d.records[id].interface == InterfaceName(id)
  {
  }

  lemma DownKeepsRecords(d: Shared, interface: Interface, c: Choice)
    ensures DownEffect(d, interface, c).records == d.records && DownEffect(d, interface, c).launches == d.launches
  {
  }

  lemma QuietClears(d: Shared, id: ConnectionId)
    requires Quiet(d, id)
    ensures Quiet(d.(markers := d.markers - {id}), id)
  {
  }

  // A connect in progress.

  lemma UpChecksServe(lang: Language, d: Shared, p: Phase, c: Choice, id: ConnectionId)
    requires p.UpLoad? || p.UpClear? || p.UpCheck?
    requires GoingUp(p, id) && (id in d.records ==> d.records[id].id == id)
    ensures var (d', p') := Section(lang, d, p, c);
      d'.records == d.records && (GoingUp(p', id) || (p'.Done? && p'.reply != Unit))
  {
    hide Section;
    if p.UpLoad? {
      UpLoadServes(lang, d, p, c);
    } else {
      UpCheckServes(lang, d, p, c, id);
    }
  }

  lemma UpLoadServes(lang: Language, d: Shared, p: Phase, c: Choice)
    requires p.UpLoad? && (p.id in d.records ==> d.records[p.id].id == p.id)
    ensures var (d', p') := Section(lang, d, p, c);
      d'.records == d.records && (GoingUp(p', p.id) || (p'.Done? && p'.reply != Unit))
  {
    hide Reparses;
  }

  lemma UpCheckServes(lang: Language, d: Shared, p: Phase, c: Choice, id: ConnectionId)
    requires (p.UpClear? || p.UpCheck?) && GoingUp(p, id)
    ensures var (d', p') := Section(lang, d, p, c);
      d'.records == d.records && (GoingUp(p', id) || (p'.Done? && p'.reply != Unit))
  {
    hide ClearDead;
    ClearKeepsRecords(d, p.stored.interface, c);
  }

  lemma ClearKeepsRecords(d: Shared, interface: Interface, c: Choice)
    ensures ClearDead(d, interface, c).records == d.records
  {
    hide HelperOn;
  }

  lemma UpLaunchServes(lang: Language, d: Shared, p: Phase, c: Choice, id: ConnectionId)
    requires p.UpSpawn? || p.UpPost? || p.UpRollback? || p.UpSave? || p.UpOk?
    requires GoingUp(p, id)
    ensures var (d', p') := Section(lang, d, p, c);
      d'.records == d.records && (GoingUp(p', id) || (p'.Done? && (p'.reply == Unit ==> p.UpOk? && d' == d)))
  {
    hide Section, GoingUp;
    if p.UpSpawn? || p.UpPost? {
      UpStartServes(lang, d, p, c, id);
    } else {
      UpEndServes(lang, d, p, c, id);
    }
  }

  lemma UpStartServes(lang: Language, d: Shared, p: Phase, c: Choice, id: ConnectionId)
    requires (p.UpSpawn? || p.UpPost?) && GoingUp(p, id)
    ensures var (d', p') := Section(lang, d, p, c);
      d'.records == d.records && (GoingUp(p', id) || (p'.Done? && p'.reply != Unit))
  {
    hide HelperOn;
  }

  lemma UpEndServes(lang: Language, d: Shared, p: Phase, c: Choice, id: ConnectionId)
    requires (p.UpRollback? || p.UpSave? || p.UpOk?) && GoingUp(p, id)
    ensures var (d', p') := Section(lang, d, p, c);
      d'.records == d.records && (GoingUp(p', id) || (p'.Done? && (p'.reply == Unit ==> p.UpOk? && d' == d)))
  {
    hide DownEffect;
    DownKeepsRecords(d, p.stored.interface, c);
  }

  lemma UpServes(lang: Language, d: Shared, p: Phase, c: Choice, id: ConnectionId)
    requires DataOk(lang, d) && Runnable(p) && GoingUp(p, id)
    ensures var (d', p') := Section(lang, d, p, c);
      && d'.records == d.records
      && (GoingUp(p', id) || (p'.Done? && (p'.reply == Unit ==> p.UpOk? && d' == d)))
  {
    hide DataOk, Section, RecordOk;
    if id in d.records {
      StoredRecord(lang, d, id);
      RecordNamed(lang, d, id);
    }
    if p.UpLoad? || p.UpClear? || p.UpCheck? {
      UpChecksServe(lang, d, p, c, id);
    } else {
      UpLaunchServes(lang, d, p, c, id);
    }
  }

  lemma UpStaysFresh(lang: Language, d: Shared, p: Phase, c: Choice, id: ConnectionId)
    requires DataOk(lang, d) && ThreadOk(lang, d, p) && Runnable(p) && GoingUp(p, id) && Fresh(lang, d, p)
    ensures Section(lang, d, p, c).1.Done? || Fresh(lang, Section(lang, d, p, c).0, Section(lang, d, p, c).1)
  {
    hide DataOk, ThreadOk, Section, Fresh, RecordOk;
    if id in d.records {
      StoredRecord(lang, d, id);
      RecordNamed(lang, d, id);
    }
    if p.UpLoad? || p.UpClear? || p.UpCheck? {
      ChecksStayFresh(lang, d, p, c, id);
    } else {
      LaunchStaysFresh(lang, d, p, c);
    }
  }

  lemma ChecksStayFresh(lang: Language, d: Shared, p: Phase, c: Choice, id: ConnectionId)
    requires (p.UpLoad? || p.UpClear? || p.UpCheck?) && ThreadOk(lang, d, p) && GoingUp(p, id) && Fresh(lang, d, p)
    requires id in d.records ==> d.records[id].id == id && d.records[id].interface == InterfaceName(id)
    ensures Section(lang, d, p, c).1.Done? || Fresh(lang, Section(lang, d, p, c).0, Section(lang, d, p, c).1)
  {
    hide AddPart, RewritePart, ReplyPart, SocketPart, AccessPart, Reparses, ClearDead, Launched;
  }

  lemma LaunchStaysFresh(lang: Language, d: Shared, p: Phase, c: Choice)
    requires p.UpSpawn? || p.UpPost? || p.UpRollback? || p.UpSave? || p.UpOk?
    requires ThreadOk(lang, d, p) && Fresh(lang, d, p)
    ensures Section(lang, d, p, c).1.Done? || Fresh(lang, Section(lang, d, p, c).0, Section(lang, d, p, c).1)
  {
    hide AddPart, RewritePart, ReplyPart, AccessPart, HelperOn, DownEffect;
  }

  lemma ConnectServes(lang: Language, id: ConnectionId, debug: bool, reason: Reason, d: Shared, p: Phase, c: Choice)
    requires DataOk(lang, d) && ThreadOk(lang, d, p) && Runnable(p) && ServingConnect(id, debug, reason, d, p)
    ensures var (d', p') := Section(lang, d, p, c);
      || ServingConnect(id, debug, reason, d', p')
      || (p'.Done? && (p'.reply == Unit ==> ConnectMeans(lang, id, reason, d, p, d')))
  {
    hide DataOk, ThreadOk, Section, RecordOk, ConnectMeans;
    if id in d.records {
      StoredRecord(lang, d, id);
      RecordNamed(lang, d, id);
    }
    if p.ConnectIntent? {
      IntentServes(lang, id, debug, reason, d, p, c);
    } else {
      UpServes(lang, d, p, c, id);
      if p.UpOk? {
        UpOkMeans(lang, id, reason, d, p);
      }
    }
  }

  lemma IntentServes(lang: Language, id: ConnectionId, debug: bool, reason: Reason, d: Shared, p: Phase, c: Choice)
    requires p.ConnectIntent? && p == ConnectIntent(id, debug, reason, p.uid)
      && (id in d.records ==> d.records[id].id == id)
    ensures var (d', p') := Section(lang, d, p, c);
      || ServingConnect(id, debug, reason, d', p')
      || (p'.Done? && (p'.reply == Unit ==> ConnectMeans(lang, id, reason, d, p, d')))
  {
  }

  lemma UpOkMeans(lang: Language, id: ConnectionId, reason: Reason, d: Shared, p: Phase)
    requires DataOk(lang, d) && ThreadOk(lang, d, p) && p.UpOk? && p.stored.id == id
    requires id in d.records ==> !d.records[id].userDisconnected
    ensures ConnectMeans(lang, id, reason, d, p, d)
  {
    hide AddPart, RewritePart, ReplyPart, RecordsOk, RecordsApart, LiveOk, MarkersCurrent;
  }

  // Teardown first.

  lemma DownServes(lang: Language, d: Shared, p: Phase, c: Choice, id: ConnectionId, k: Then)
    requires ThreadOk(lang, d, p) && Runnable(p) && GoingDown(p, id) && p.then_ == k
    ensures var (d', p') := Section(lang, d, p, c);
      && d'.records == d.records
      && (|| (GoingDown(p', id) && p'.then_ == k) || p' == Done(Failed)
          || (p.DownClear? && p' == AfterDown(id, k) && InterfaceName(id) !in d'.sockets))
  {
    hide AddPart, RewritePart, StoredPart, ReplyPart, BringDown, AfterDown, HelperOn;
    DownKeepsRecords(d, InterfaceName(id), c);
  }

  lemma ReconnectServes(lang: Language, id: ConnectionId, d: Shared, p: Phase, c: Choice)
    requires DataOk(lang, d) && Lawful(lang) && ThreadOk(lang, d, p) && Runnable(p) && ServingReconnect(lang, id, d, p)
    ensures GoesOnOrAnswers(lang, ReconnectRequest(id), c, d, p, Section(lang, d, p, c))
  {
    hide DataOk, Lawful, ThreadOk, Section, Fresh, UpFresh;
    if p.ReconnectLocked? {
      ReconnectDecides(lang, d, p, c);
    } else if GoingDown(p, id) {
      DownServes(lang, d, p, c, id, p.then_);
      FreshLoad(lang, Section(lang, d, p, c).0, id, p.then_.debug);
    } else {
      UpServes(lang, d, p, c, id);
      UpStaysFresh(lang, d, p, c, id);
      if p.UpOk? {
        UpOkFresh(lang, d, p);
      }
    }
  }

  lemma ReconnectDecides(lang: Language, d: Shared, p: Phase, c: Choice)
    requires p.ReconnectLocked?
    ensures var (d', p') := Section(lang, d, p, c);
      d' == d && (p' == Done(NotActive) || (p'.DownLoad? && p'.id == p.id && p'.then_.Reconnect?))
  {
    hide ActiveDebug;
  }

  lemma FreshLoad(lang: Language, d: Shared, id: ConnectionId, debug: bool)
    ensures InterfaceName(id) !in d.sockets ==> Fresh(lang, d, UpLoad(id, debug))
  {
  }

  lemma UpOkFresh(lang: Language, d: Shared, p: Phase)
    requires DataOk(lang, d) && Lawful(lang) && ThreadOk(lang, d, p) && p.UpOk? && Fresh(lang, d, p)
    ensures UpFresh(d, p.stored.id)
  {
    hide DataOk, AddPart, RewritePart, ReplyPart;
    StoredRecord(lang, d, p.stored.id);
  }

  // Refresh.

  lemma RefreshListed(
      lang: Language, id: ConnectionId, text: string, source: Option<string>, form: Form, d: Shared, p: Phase,
      c: Choice)
    requires DataOk(lang, d) && p.RefreshLocked? && p == RefreshLocked(id, text, source, form, p.uid)
    ensures GoesOnOrAnswers(lang, RefreshRequest(id, text, source, form), c, d, p, Section(lang, d, p, c))
  {
    hide DataOk, FoundIdentity, GoingUp, Fresh;
    if id in d.records {
      StoredRecord(lang, d, id);
    }
  }

  lemma RefreshTouched(
      lang: Language, id: ConnectionId, text: string, source: Option<string>, form: Form, d: Shared, p: Phase,
      c: Choice)
    requires DataOk(lang, d) && ThreadOk(lang, d, p) && p.RefreshTouch?
    requires p.next.id == id && p.next.sourcePath == source && DenotedBy(lang, p.next, text)
    ensures GoesOnOrAnswers(lang, RefreshRequest(id, text, source, form), c, d, p, Section(lang, d, p, c))
  {
    hide DataOk, AddPart, RewritePart, ReplyPart, SocketPart, StoredPart, DenotedBy;
    StoredRecord(lang, d, id);
  }

  lemma RefreshRewrites(
      lang: Language, id: ConnectionId, text: string, source: Option<string>, form: Form, d: Shared, p: Phase,
      c: Choice)
    requires DataOk(lang, d) && ThreadOk(lang, d, p) && (p.RefreshAuthed? || p.RefreshWrite?)
    requires form == Verified && Rewriting(lang, d, id, text, source, p)
    ensures GoesOnOrAnswers(lang, RefreshRequest(id, text, source, form), c, d, p, Section(lang, d, p, c))
  {
    hide DataOk, AddPart, AccessPart, ReplyPart, SocketPart, StoredPart, DenotedBy, Apart, ActiveDebug;
  }

  lemma RefreshTearsDown(
      lang: Language, id: ConnectionId, text: string, source: Option<string>, form: Form, d: Shared, p: Phase,
      c: Choice)
    requires ThreadOk(lang, d, p) && Runnable(p) && GoingDown(p, id) && p.then_.Rewrite?
    requires form == Verified && Rewriting(lang, d, id, text, source, p)
    ensures var (d', p') := Section(lang, d, p, c);
      (p' == Done(Failed)) || (form == Verified && Rewriting(lang, d', id, text, source, p'))
  {
    hide ThreadOk, Section, Replaced;
    DownServes(lang, d, p, c, id, p.then_);
  }

  lemma RefreshGoesUp(
      lang: Language, id: ConnectionId, text: string, source: Option<string>, form: Form, d: Shared, p: Phase,
      c: Choice)
    requires DataOk(lang, d) && Lawful(lang) && ThreadOk(lang, d, p) && Runnable(p) && GoingUp(p, id)
      && Fresh(lang, d, p)
    requires form == Verified && (id in d.records ==> Replaced(lang, d.records[id], text, source))
    ensures GoesOnOrAnswers(lang, RefreshRequest(id, text, source, form), c, d, p, Section(lang, d, p, c))
  {
    hide DataOk, Lawful, ThreadOk, Section, Fresh, UpFresh, DenotedBy, RecordOk;
    UpServes(lang, d, p, c, id);
    UpStaysFresh(lang, d, p, c, id);
    if p.UpOk? {
      UpOkFresh(lang, d, p);
      UpFreshStored(d, id);
      StoredRecord(lang, d, id);
      RecordLinks(lang, d, id);
    }
  }

  lemma UpFreshStored(d: Shared, id: ConnectionId)
    requires UpFresh(d, id)
    ensures id in d.records
  {
  }

  lemma RecordLinks(lang: Language, d: Shared, id: ConnectionId)
    requires id in d.records && RecordOk(lang, d, id, d.records[id])
    ensures lang.validLinks(d.records[id].links, d.records[id].config)
  {
  }

  lemma RefreshServes(
      lang: Language, id: ConnectionId, text: string, source: Option<string>, form: Form, d: Shared, p: Phase,
      c: Choice)
    requires DataOk(lang, d) && Lawful(lang) && ThreadOk(lang, d, p) && Runnable(p)
    requires ServingRefresh(lang, id, text, source, form, d, p)
    ensures GoesOnOrAnswers(lang, RefreshRequest(id, text, source, form), c, d, p, Section(lang, d, p, c))
  {
    hide DataOk, Lawful, ThreadOk, Section, Fresh, Replaced, DenotedBy, RefreshMeans, ServingRefresh, Rewriting,
      GoingUp;
    RefreshPhases(lang, id, text, source, form, d, p);
    if p.RefreshLocked? {
      RefreshListed(lang, id, text, source, form, d, p, c);
    } else if p.RefreshTouch? {
      RefreshTouched(lang, id, text, source, form, d, p, c);
    } else if p.RefreshAuthed? || p.RefreshWrite? {
      RefreshRewrites(lang, id, text, source, form, d, p, c);
    } else if RewriteOf(p).Some? {
      RefreshTearsDown(lang, id, text, source, form, d, p, c);
      if Section(lang, d, p, c).1 != Done(Failed) {
        RewritingServes(lang, id, text, source, form, Section(lang, d, p, c));
      }
    } else {
      RefreshGoesUp(lang, id, text, source, form, d, p, c);
    }
  }

  lemma RewritingServes(
      lang: Language, id: ConnectionId, text: string, source: Option<string>, form: Form, r: (Shared, Phase))
    requires form == Verified && Rewriting(lang, r.0, id, text, source, r.1)
    ensures ServingRefresh(lang, id, text, source, form, r.0, r.1)
  {
    hide Rewriting;
  }

  /** What a thread that serves a refresh knows in each phase that runs. */
  lemma RefreshPhases(
      lang: Language, id: ConnectionId, text: string, source: Option<string>, form: Form, d: Shared, p: Phase)
    requires ThreadOk(lang, d, p) && Runnable(p) && ServingRefresh(lang, id, text, source, form, d, p)
    ensures p.RefreshLocked? ==> p == RefreshLocked(id, text, source, form, p.uid)
    ensures p.RefreshTouch? ==> p.next.id == id && p.next.sourcePath == source && DenotedBy(lang, p.next, text)
    ensures RewriteOf(p).Some? ==>
      && form == Verified && Rewriting(lang, d, id, text, source, p)
      && (p.RefreshAuthed? || p.RefreshWrite? || (GoingDown(p, id) && p.then_.Rewrite?))
    ensures !p.RefreshLocked? && !p.RefreshTouch? && RewriteOf(p).None? ==>
      && form == Verified && GoingUp(p, id) && Fresh(lang, d, p)
      && (id in d.records ==> Replaced(lang, d.records[id], text, source))
  {
    hide ThreadOk, Fresh, Replaced, DenotedBy;
    if RewriteOf(p).Some? {
      RewriteHere(lang, d, p);
    }
  }

  lemma RewriteHere(lang: Language, d: Shared, p: Phase)
    requires ThreadOk(lang, d, p) && RewriteOf(p).Some?
    ensures HoldsConnection(p) == Some(RewriteOf(p).value.id)
  {
    hide AddPart, AccessPart, StoredPart, SocketPart, ReplyPart, RefreshOk;
  }

  /** Every own section either goes on with the request or answers it truthfully. */
  lemma SectionServes(lang: Language, request: Request, d: Shared, p: Phase, c: Choice)
    requires DataOk(lang, d) && Lawful(lang) && ThreadOk(lang, d, p) && Runnable(p) && AtWork(lang, request, d, p)
    ensures GoesOnOrAnswers(lang, request, c, d, p, Section(lang, d, p, c))
  {
    hide DataOk, Lawful, ThreadOk, Section, ServingAdd, ServingRefresh, ServingConnect, ServingDisconnect;
    hide ServingReconnect, ServingRemove, ServingEdit, ServingSweep;
    match request
    case AddRequest(a) => AddServes(lang, a, d, p, c);
    case RefreshRequest(id, text, source, form) => RefreshServes(lang, id, text, source, form, d, p, c);
    case RemoveRequest(id, form) => RemoveServes(lang, id, form, d, p, c);
    case ConnectRequest(id, debug, reason) => ConnectServes(lang, id, debug, reason, d, p, c);
    case BootRequest(id) => ConnectServes(lang, id, false, Reconciliation, d, p, c);
    case DisconnectRequest(id, byUser) => DisconnectServes(lang, id, byUser, d, p, c);
    case ReconnectRequest(id) => ReconnectServes(lang, id, d, p, c);
    case EditRequest(id, edit) => EditServes(lang, id, edit, d, p, c);
    case SweepRequest(id) => SweepServes(lang, id, d, p, c);
  }

  // ---- whole runs -----------------------------------------------------------------------------------

  /** A thread that relies on more than its request holds the lock of a connection that was created. */
  lemma RelyingHolds(lang: Language, d: Shared, p: Phase)
    requires ThreadOk(lang, d, p) && DataOk(lang, d) && Relies(p)
    ensures HoldsConnection(p).Some? && HoldsConnection(p).value in d.created
  {
    hide AddPart, SocketPart, DataOk, Apart, RecordOk;
    var id := HoldsConnection(p).value;
    if id in d.records {
      StoredRecord(lang, d, id);
      CreatedRecord(lang, d, id, d.records[id]);
    }
  }

  /** And that connection is the subject of the request. */
  lemma RelyingSubject(lang: Language, request: Request, d: Shared, p: Phase)
    requires AtWork(lang, request, d, p) && Relies(p) && Subject(request).Some?
    requires RewriteOf(p).Some? ==> HoldsConnection(p) == Some(RewriteOf(p).value.id)
    ensures HoldsConnection(p) == Subject(request)
  {
    hide ServingRefresh, Relies, RewriteOf, HoldsConnection, Fresh, AsAsked, AsSubmitted;
    if request.RefreshRequest? {
      RefreshSubject(lang, request.id, request.text, request.source, request.form, d, p);
    } else {
      OtherSubject(lang, request, d, p);
    }
  }

  lemma RefreshSubject(
      lang: Language, id: ConnectionId, text: string, source: Option<string>, form: Form, d: Shared, p: Phase)
    requires ServingRefresh(lang, id, text, source, form, d, p) && Relies(p)
    requires RewriteOf(p).Some? ==> HoldsConnection(p) == Some(RewriteOf(p).value.id)
    ensures HoldsConnection(p) == Some(id)
  {
    hide Replaced, DenotedBy, Fresh;
  }

  lemma OtherSubject(lang: Language, request: Request, d: Shared, p: Phase)
    requires AtWork(lang, request, d, p) && Relies(p) && Subject(request).Some? && !request.RefreshRequest?
    ensures HoldsConnection(p) == Subject(request)
  {
    hide Fresh, AsAsked, AsSubmitted, GoingUp, GoingDown, HoldsConnection;
    var id := Subject(request).value;
    ProgressHolds(p, id);
  }

  /** A connect or a teardown at work has the connection's lock. */
  lemma ProgressHolds(p: Phase, id: ConnectionId)
    ensures GoingUp(p, id) || GoingDown(p, id) ==> HoldsConnection(p) == Some(id)
  {
  }

  /** The locks a thread at work relies on are its own. */
  lemma ReliesOnLock(lang: Language, request: Request, d: Shared, p: Phase)
    requires ThreadOk(lang, d, p) && DataOk(lang, d) && AtWork(lang, request, d, p) && Relies(p)
      && Subject(request).Some?
    ensures HoldsConnection(p) == Subject(request) && Subject(request).value in d.created
  {
    hide ThreadOk, DataOk, AtWork, Relies, HoldsConnection;
    RelyingHolds(lang, d, p);
    if RewriteOf(p).Some? {
      RewriteHere(lang, d, p);
    }
    RelyingSubject(lang, request, d, p);
  }

  lemma StepServes(lang: Language, s: State, step: Step, t: nat, request: Request)
    requires Inv(lang, s) && Lawful(lang) && Enabled(s, step) && !(step.Arrive? && step.thread == t)
    requires Serving(lang, request, s.shared, PhaseOf(s, t))
    ensures Serving(lang, request, Apply(lang, s, step).shared, PhaseOf(Apply(lang, s, step), t))
  {
    hide DataOk, ThreadOk, Lawful, Section, AtWork, EnvironmentStep, Acquired, FirstPhase, Wants, Exclusive;
    hide Daemon.Accepted, HoldsConnection, Relies;
    var d, p := s.shared, PhaseOf(s, t);
    if AtWork(lang, request, d, p) && !p.Done? && !p.Idle? {
      assert ThreadOk(lang, d, p);
      if step.Run? && step.thread == t {
        SectionServes(lang, request, d, p, step.choice);
      } else if step == Acquire(t) {
        AcquiredServes(lang, request, d, p);
      } else if step != Stop(t) {
        OthersServe(lang, s, step, t, request);
      }
    } else {
      FinishedStays(lang, s, step, t);
    }
  }

  lemma OthersServe(lang: Language, s: State, step: Step, t: nat, request: Request)
    requires Inv(lang, s) && Lawful(lang) && Enabled(s, step) && t in s.threads && !OwnStep(step, t)
    requires AtWork(lang, request, s.shared, s.threads[t])
    ensures AtWork(lang, request, Apply(lang, s, step).shared, s.threads[t])
    ensures PhaseOf(Apply(lang, s, step), t) == s.threads[t]
  {
    hide DataOk, Lawful, Section, AtWork, EnvironmentStep, Acquired, FirstPhase, Wants, Exclusive, Enabled;
    hide Daemon.Accepted, HoldsConnection, Relies, Untouched, AddPart, RewritePart, SocketPart, ReplyPart, AccessPart;
    var p := s.threads[t];
    assert ThreadOk(lang, s.shared, p);
    if Relies(p) && Subject(request).Some? {
      ReliesOnLock(lang, request, s.shared, p);
      OthersLeave(lang, s, step, t, Subject(request).value);
    }
    AtWorkStable(lang, request, s.shared, Apply(lang, s, step).shared, p);
  }

  /** A step taken by thread `t`. */
  predicate OwnStep(step: Step, t: nat) {
    (step.Arrive? || step.Acquire? || step.Run? || step.Stop?) && step.thread == t
  }

  lemma FinishedStays(lang: Language, s: State, step: Step, t: nat)
    requires Enabled(s, step) && !(step.Arrive? && step.thread == t)
    ensures PhaseOf(s, t).Done? || PhaseOf(s, t).Idle? ==>
      PhaseOf(Apply(lang, s, step), t) == PhaseOf(s, t) || PhaseOf(Apply(lang, s, step), t).Idle?
  {
    hide FirstPhase, Acquired, EnvironmentStep, Save, AddSection, RefreshSection, EditSection, Reparses, HelperOn;
  }

  /** Thread `t` serves the request that arrived in step `i`, until before step `k`. */
  predicate Serves(steps: seq<Step>, i: nat, k: nat, t: nat) {
    && i < k <= |steps| && steps[i].Arrive? && steps[i].thread == t
    && forall j :: i < j < k ==> !(steps[j].Arrive? && steps[j].thread == t)
  }

  lemma {:induction false} ServedAt(lang: Language, start: State, steps: seq<Step>, i: nat, k: nat, t: nat)
    requires Lawful(lang) && Init(start) && Possible(lang, start, steps) && Serves(steps, i, k, t)
    ensures Serving(lang, steps[i].request, StateAt(lang, start, steps, k).shared, PhaseAt(lang, start, steps, k, t))
    ensures k == i + 1 ==> !PhaseAt(lang, start, steps, k, t).Done?
    decreases k
  {
    hide Lawful, Inv, Enabled, Apply, Serving, FirstPhase, AtWork;
    var s, step := StateAt(lang, start, steps, k - 1), steps[k - 1];
    StepAt(lang, start, steps, k - 1);
    if k == i + 1 {
      PhaseMoves(lang, s, step, t);
      FirstServes(lang, step.request, step.uid, StateAt(lang, start, steps, k).shared);
      FirstIsWork(lang, step.request, step.uid, StateAt(lang, start, steps, k).shared);
    } else {
      ServedAt(lang, start, steps, i, k - 1, t);
      InitOk(lang, start);
      InvAt(lang, start, steps, k - 1);
      StepServes(lang, s, step, t, steps[i].request);
    }
  }

  lemma FirstIsWork(lang: Language, request: Request, uid: nat, d: Shared)
    ensures !FirstPhase(request, uid).Done? && Serving(lang, request, d, FirstPhase(request, uid))
  {
    FirstServes(lang, request, uid, d);
  }

  /** A thread answers only by a section of its own. */
  lemma AnsweringStep(lang: Language, s: State, step: Step, t: nat, request: Request)
    requires Inv(lang, s) && Lawful(lang) && Enabled(s, step) && !(step.Arrive? && step.thread == t)
    requires Serving(lang, request, s.shared, PhaseOf(s, t))
    requires PhaseOf(Apply(lang, s, step), t).Done? && PhaseOf(Apply(lang, s, step), t) != PhaseOf(s, t)
    ensures step.Run? && step.thread == t
    ensures Means(lang, request, step.choice, PhaseOf(Apply(lang, s, step), t).reply, s.shared, PhaseOf(s, t),
                  Apply(lang, s, step).shared)
  {
    hide DataOk, ThreadOk, Lawful, Section, AtWork, EnvironmentStep, FirstPhase, Exclusive, Means, Daemon.Accepted;
    FinishedStays(lang, s, step, t);
    AnswerByRun(lang, s, step, t);
    assert ThreadOk(lang, s.shared, PhaseOf(s, t));
    SectionServes(lang, request, s.shared, PhaseOf(s, t), step.choice);
    DoneIsNoWork(lang, request, Section(lang, s.shared, PhaseOf(s, t), step.choice));
  }

  lemma AnswerByRun(lang: Language, s: State, step: Step, t: nat)
    requires Enabled(s, step) && !(step.Arrive? && step.thread == t)
    requires PhaseOf(Apply(lang, s, step), t).Done? && PhaseOf(Apply(lang, s, step), t) != PhaseOf(s, t)
    ensures step.Run? && step.thread == t && t in s.threads
  {
    hide Section, FirstPhase, EnvironmentStep;
  }

  lemma DoneIsNoWork(lang: Language, request: Request, r: (Shared, Phase))
    ensures r.1.Done? ==> !AtWork(lang, request, r.0, r.1)
  {
    hide Replaced, DenotedBy, Fresh, AsAsked, AsSubmitted;
  }
}
