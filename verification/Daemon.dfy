/**
  The privileged daemon as a state machine (src/privileged/dispatch.rs,
  connection_ops.rs, connection_store.rs, dns_sweep.rs). Any number of threads
  run the request handlers, boot and session reconciliation, and the crash
  sweep. A handler is cut into sections at its lock points; a read of something
  no held lock protects (a socket, a record under the index lock alone) ends a
  section. Helpers crash and exit, record files become unreadable, and a thread
  may stop anywhere: on a lock timeout, an I/O error, or because the daemon dies.

  A lock is held by the thread whose phase says so.
 */
module Daemon {
  import opened Wrappers
  import opened BypassLinks
  import opened Records

  // ---- requests and replies -----------------------------------------------------------

  /** The admin form of a request, as `authz` judges it. */
  datatype Form = Absent | Refused | Verified

  datatype Add = Add(
    text: string, global: bool, owner: Option<nat>, mode: StartMode, name: Option<string>,
    mtu: Option<nat>, force: bool, source: Option<string>, form: Form)

  datatype Reason = User | Reconciliation

  datatype Edit = SetMode(mode: StartMode, form: Form) | SetDns(enabled: bool) | SetLinks(links: seq<BypassLink>)

  datatype Request =
    | AddRequest(add: Add)
    | RefreshRequest(id: ConnectionId, text: string, source: Option<string>, form: Form)
    | RemoveRequest(id: ConnectionId, form: Form)
    | ConnectRequest(id: ConnectionId, debug: bool, reason: Reason)
    | DisconnectRequest(id: ConnectionId, byUser: bool)
    | ReconnectRequest(id: ConnectionId)
    | EditRequest(id: ConnectionId, edit: Edit)
    | SweepRequest(id: ConnectionId)
    | BootRequest(id: ConnectionId)

  datatype Reply =
    | Unit
    | Id(id: ConnectionId)
    | NotFound
    | Denied
    | AuthRequired
    | NameInUse
    | Duplicate
    | Busy
    | InvalidLink
    | Stale
    | Conflict
    | Mismatch(id: ConnectionId)
    | NotActive
    | Failed

  // ---- shared state ---------------------------------------------------------------------

  datatype Shared = Shared(
    records: map<ConnectionId, Record>,
    unreadable: set<ConnectionId>,
    markers: map<ConnectionId, Marker>,
    sockets: map<Interface, nat>,
    live: set<nat>,
    launches: seq<Launch>,
    minted: set<ConnectionId>,
    // History: records ever created, whether `force` ever bypassed the name
    // check, and the connections a refresh took for inactive because a stat
    // failed.
    created: set<ConnectionId>,
    forced: bool,
    statFaults: set<ConnectionId>)

  /** What follows a disconnect that is part of a larger request. */
  datatype Then = Finish | Reconnect(debug: bool) | Rewrite(next: Record, debug: bool)

  datatype Phase =
    | Idle
    | Done(reply: Reply)
    // handle_add_connection, reconcile_existing_add
    | AddWantIndex(add: Add)
    | AddIndexed(add: Add)
    | AddWantConn(next: Record, moves: bool) // whether the request changes the mode
    | AddHaveConn(next: Record, moves: bool)
    | AddCreate(next: Record)
    // refresh_connection
    | RefreshWantIndex(id: ConnectionId, text: string, source: Option<string>, form: Form, uid: nat)
    | RefreshWantConn(id: ConnectionId, text: string, source: Option<string>, form: Form, uid: nat)
    | RefreshLocked(id: ConnectionId, text: string, source: Option<string>, form: Form, uid: nat)
    | RefreshTouch(next: Record)
    | RefreshAuthed(next: Record)
    | RefreshWrite(next: Record, wasActive: Option<bool>)
    // handle_remove_connection
    | RemoveWantIndex(id: ConnectionId, form: Form, uid: nat)
    | RemoveIndexed(id: ConnectionId, form: Form, uid: nat)
    | RemoveWantConn(id: ConnectionId, form: Form)
    | RemoveLocked(id: ConnectionId, form: Form)
    // handle_connect_connection, reconcile_connect
    | ConnectWantConn(id: ConnectionId, debug: bool, reason: Reason, uid: nat)
    | ConnectIntent(id: ConnectionId, debug: bool, reason: Reason, uid: nat)
    // connection_ops::connect
    | UpLoad(id: ConnectionId, debug: bool)
    | UpWantClear(stored: Record, debug: bool)
    | UpClear(stored: Record, debug: bool)
    | UpCheck(stored: Record, debug: bool)
    | UpWantNetwork(stored: Record, debug: bool)
    | UpSpawn(stored: Record, debug: bool)
    | UpPost(stored: Record, debug: bool, launch: nat)
    | UpWantRollback(stored: Record)
    | UpRollback(stored: Record)
    | UpSave(stored: Record, marker: Marker)
    | UpOk(stored: Record)
    // handle_disconnect_connection
    | DisconnectWantConn(id: ConnectionId, byUser: bool, uid: nat)
    | DisconnectMark(id: ConnectionId, byUser: bool, uid: nat)
    // connection_ops::disconnect
    | DownLoad(id: ConnectionId, then_: Then)
    | DownWantNetwork(id: ConnectionId, then_: Then)
    | DownRun(id: ConnectionId, then_: Then)
    | DownClear(id: ConnectionId, then_: Then)
    // reconnect_connection
    | ReconnectWantConn(id: ConnectionId, uid: nat)
    | ReconnectLocked(id: ConnectionId, uid: nat)
    // handle_set_connection_mode, _dns_dynamic_store, _bypass_links
    | EditWantConn(id: ConnectionId, edit: Edit, uid: nat)
    | EditLocked(id: ConnectionId, edit: Edit, uid: nat)
    // dns_sweep::run_sweep for one interface
    | SweepWantNetwork(id: ConnectionId)
    | SweepRun(id: ConnectionId)
    | SweepWantConn(id: ConnectionId)
    | SweepLocked(id: ConnectionId)

  // ---- locks ------------------------------------------------------------------------------

  datatype Lock = Index | Connection(id: ConnectionId) | Network

  predicate HoldsIndex(p: Phase) {
    match p
    case AddIndexed(_) | AddWantConn(_, _) | AddHaveConn(_, _) | AddCreate(_) => true
    case RefreshWantConn(_, _, _, _, _) | RefreshLocked(_, _, _, _, _) | RefreshAuthed(_) | RefreshWrite(_, _) => true
    case RemoveIndexed(_, _, _) | RemoveWantConn(_, _) | RemoveLocked(_, _) => true
    case DownLoad(_, k) => k.Rewrite?
    case DownWantNetwork(_, k) => k.Rewrite?
    case DownRun(_, k) => k.Rewrite?
    case DownClear(_, k) => k.Rewrite?
    case _ => false
  }

  function HoldsConnection(p: Phase): Option<ConnectionId> {
    match p
    case AddHaveConn(next, _) => Some(next.id)
    case RefreshLocked(id, _, _, _, _) => Some(id)
    case RefreshTouch(next) => Some(next.id)
    case RefreshAuthed(next) => Some(next.id)
    case RefreshWrite(next, _) => Some(next.id)
    case RemoveLocked(id, _) => Some(id)
    case ConnectIntent(id, _, _, _) => Some(id)
    case UpLoad(id, _) => Some(id)
    case UpWantClear(stored, _) => Some(stored.id)
    case UpClear(stored, _) => Some(stored.id)
    case UpCheck(stored, _) => Some(stored.id)
    case UpWantNetwork(stored, _) => Some(stored.id)
    case UpSpawn(stored, _) => Some(stored.id)
    case UpPost(stored, _, _) => Some(stored.id)
    case UpWantRollback(stored) => Some(stored.id)
    case UpRollback(stored) => Some(stored.id)
    case UpSave(stored, _) => Some(stored.id)
    case UpOk(stored) => Some(stored.id)
    case DisconnectMark(id, _, _) => Some(id)
    case DownLoad(id, _) => Some(id)
    case DownWantNetwork(id, _) => Some(id)
    case DownRun(id, _) => Some(id)
    case DownClear(id, _) => Some(id)
    case ReconnectLocked(id, _) => Some(id)
    case EditLocked(id, _, _) => Some(id)
    case SweepLocked(id) => Some(id)
    case _ => None
  }

  predicate HoldsNetwork(p: Phase) {
    p.UpClear? || p.UpSpawn? || p.UpRollback? || p.DownRun? || p.SweepRun?
  }

  /** The lock a thread in this phase is waiting for. */
  function Wants(p: Phase): Option<Lock> {
    match p
    case AddWantIndex(_) => Some(Index)
    case RefreshWantIndex(_, _, _, _, _) => Some(Index)
    case RemoveWantIndex(_, _, _) => Some(Index)
    case AddWantConn(next, _) => Some(Connection(next.id))
    case RefreshWantConn(id, _, _, _, _) => Some(Connection(id))
    case RemoveWantConn(id, _) => Some(Connection(id))
    case ConnectWantConn(id, _, _, _) => Some(Connection(id))
    case DisconnectWantConn(id, _, _) => Some(Connection(id))
    case ReconnectWantConn(id, _) => Some(Connection(id))
    case EditWantConn(id, _, _) => Some(Connection(id))
    case SweepWantConn(id) => Some(Connection(id))
    case UpWantClear(_, _) => Some(Network)
    case UpWantNetwork(_, _) => Some(Network)
    case UpWantRollback(_) => Some(Network)
    case DownWantNetwork(_, _) => Some(Network)
    case SweepWantNetwork(_) => Some(Network)
    case _ => None
  }

  /** The phase after the wanted lock was taken. */
  function Acquired(p: Phase): Phase
    requires Wants(p).Some?
  {
    match p
    case AddWantIndex(add) => AddIndexed(add)
    case RefreshWantIndex(id, text, source, form, uid) => RefreshWantConn(id, text, source, form, uid)
    case RemoveWantIndex(id, form, uid) => RemoveIndexed(id, form, uid)
    case AddWantConn(next, moves) => AddHaveConn(next, moves)
    case RefreshWantConn(id, text, source, form, uid) => RefreshLocked(id, text, source, form, uid)
    case RemoveWantConn(id, form) => RemoveLocked(id, form)
    case ConnectWantConn(id, debug, reason, uid) => ConnectIntent(id, debug, reason, uid)
    case DisconnectWantConn(id, byUser, uid) => DisconnectMark(id, byUser, uid)
    case ReconnectWantConn(id, uid) => ReconnectLocked(id, uid)
    case EditWantConn(id, edit, uid) => EditLocked(id, edit, uid)
    case SweepWantConn(id) => SweepLocked(id)
    case UpWantClear(stored, debug) => UpClear(stored, debug)
    case UpWantNetwork(stored, debug) => UpSpawn(stored, debug)
    case UpWantRollback(stored) => UpRollback(stored)
    case DownWantNetwork(id, k) => DownRun(id, k)
    case SweepWantNetwork(id) => SweepRun(id)
  }

  predicate Holds(p: Phase, lock: Lock) {
    match lock
    case Index => HoldsIndex(p)
    case Connection(id) => HoldsConnection(p) == Some(id)
    case Network => HoldsNetwork(p)
  }

  // ---- effects ------------------------------------------------------------------------------

  /** `save_in`: the atomic write also replaces a file that could not be read. */
  function Save(d: Shared, r: Record): Shared {
    d.(records := d.records[r.id := r], unreadable := d.unreadable - {r.id})
  }

  predicate HelperOn(d: Shared, interface: Interface) {
    exists n :: n in d.live && n < |d.launches| && d.launches[n].interface == interface
  }

  function Unlink(d: Shared, interface: Interface): Shared {
    d.(sockets := d.sockets - {interface})
  }

  /** A teardown the helper confirmed: no process and no socket is left on the interface. */
  function BringDown(d: Shared, interface: Interface): Shared {
    Unlink(d, interface).(live := set n | n in d.live && !(n < |d.launches| && d.launches[n].interface == interface))
  }

  /** `run_gotatun_down`: confirmed, or failed before or after the socket went. */
  function DownEffect(d: Shared, interface: Interface, c: Choice): Shared {
    if c.ok then BringDown(d, interface) else if c.partial then Unlink(d, interface) else d
  }

  /** Removal of a dead helper's files; `c.ok` says whether the removal happened. */
  function ClearDead(d: Shared, interface: Interface, c: Choice): Shared {
    if c.ok && !HelperOn(d, interface) then Unlink(d, interface) else d
  }

  function Spawn(lang: Language, d: Shared, stored: Record): Shared {
    d.(
      launches := d.launches + [Launch(
        stored.id, stored.interface, stored.fingerprint, stored.rawConf, lang.admitted(stored.links, stored.config))],
      live := d.live + {|d.launches|},
      sockets := d.sockets[stored.interface := |d.launches|])
  }

  /** `active_debug` on a stat that works: the marker's debug flag if its socket is there. */
  function ActiveDebug(d: Shared, id: ConnectionId): Option<bool> {
    if id in d.markers && InterfaceName(id) in d.sockets then Some(d.markers[id].debug) else None
  }

  // ---- sections --------------------------------------------------------------------------------

  /** What the world decides in one section. */
  datatype Choice = Choice(id: ConnectionId, ok: bool, partial: bool, statFails: bool)

  function AuthReply(form: Form): Reply {
    if form.Absent? then AuthRequired else Denied
  }

  predicate NameTaken(d: Shared, name: string, global: bool, owner: Option<nat>) {
    exists id :: id in d.records && HasName(d.records[id], name, global, owner)
  }

  /** The record `reconcile_existing_add` writes for an existing record and a resubmission. */
  function Resubmitted(existing: Record, a: Add): Record {
    existing.(
      name := if a.name.Some? then a.name else existing.name,
      sourcePath := if a.source.Some? then a.source else existing.sourcePath,
      mode := a.mode,
      userDisconnected := if a.mode != existing.mode && a.mode == Automatic then false else existing.userDisconnected)
  }

  predicate Elevates(r: Record, mode: StartMode) {
    r.global && r.mode == Manual && mode == Automatic
  }

  /** `reconcile_existing_add` up to the connection lock, on the record read under the index lock. */
  function AddExisting(d: Shared, a: Add, existing: Record): (Shared, Phase) {
    var next := Resubmitted(existing, a);
    if next == existing then (d, Done(Id(existing.id)))
    else if next.name != existing.name && !a.force && NameTaken(d, a.name.value, existing.global, existing.owner) then
      (d, Done(NameInUse))
    else if Elevates(existing, a.mode) && a.form != Verified then (d, Done(AuthReply(a.form)))
    else
      (d.(forced := d.forced || (a.force && a.name.Some?)), AddWantConn(next, a.mode != existing.mode))
  }

  function NewRecord(a: Add, id: ConnectionId, fingerprint: string, config: Config, text: string): Record {
    Record(id, fingerprint, a.global, a.owner, a.mode, a.name, config, text, InterfaceName(id),
           false, a.source, a.mtu, false, [])
  }

  /** The rest of `handle_add_connection`: a new or changed configuration. */
  function AddNew(d: Shared, a: Add, fingerprint: string, config: Config, text: string, c: Choice): (Shared, Phase) {
    if !a.force && a.name.Some? && NameTaken(d, a.name.value, a.global, a.owner) then (d, Done(NameInUse))
    else if a.form != Verified then (d, Done(AuthReply(a.form)))
    else if c.id in d.minted || (exists id :: id in d.records && d.records[id].interface == InterfaceName(c.id)) then
      (d, Done(Failed))
    else
      (d.(
        minted := d.minted + {c.id},
        forced := d.forced || (a.force && a.name.Some?)),
       AddCreate(NewRecord(a, c.id, fingerprint, config, text)))
  }

  /** `c.id` names the record `find_by_identity` returns, if there is one. */
  predicate FoundIdentity(d: Shared, fingerprint: string, global: bool, owner: Option<nat>, id: ConnectionId) {
    id in d.records && HasIdentity(d.records[id], fingerprint, global, owner)
  }

  /**
    Under the index lock: the strict listing and the decision it leads to. The
    listing returns `c.id`; a choice that is not what it finds is no progress.
   */
  function AddSection(lang: Language, d: Shared, a: Add, c: Choice): (Shared, Phase) {
    var text := Effective(lang, a.text, a.mtu);
    var parsed := lang.parse(text);
    if parsed.None? || d.unreadable != {} then (d, Done(Failed)) else
    var config := parsed.value;
    var fingerprint := lang.fingerprint(config);
    if FoundIdentity(d, fingerprint, a.global, a.owner, c.id) then AddExisting(d, a, d.records[c.id])
    else if exists id :: id in d.records && FoundIdentity(d, fingerprint, a.global, a.owner, id) then (d, AddIndexed(a))
    else AddNew(d, a, fingerprint, config, text, c)
  }

  /** The record a refresh with a changed configuration writes. */
  function Refreshed(lang: Language, stored: Record, config: Config, text: string, source: Option<string>): Record {
    stored.(
      fingerprint := lang.fingerprint(config), config := config, rawConf := text,
      sourcePath := if source.Some? then source else stored.sourcePath,
      links := lang.prune(stored.links, config))
  }

  /** `refresh_connection` under both locks, up to and including authentication. */
  function RefreshSection(
      lang: Language, d: Shared, id: ConnectionId, text: string, source: Option<string>, form: Form): (Shared, Phase) {
    if id in d.unreadable then (d, Done(Failed))
    else if id !in d.records then (d, Done(NotFound))
    else
      var stored := d.records[id];
      var effective := Effective(lang, text, stored.mtuOverride);
      var parsed := lang.parse(effective);
      if parsed.None? then (d, Done(Failed)) else
      var config := parsed.value;
      if lang.fingerprint(config) == stored.fingerprint then
        if source.Some? && source != stored.sourcePath then (d, RefreshTouch(stored.(sourcePath := source)))
        else (d, Done(Unit))
      else if d.unreadable != {} then (d, Done(Failed))
      else if exists other ::
                other in d.records && other != id
                && FoundIdentity(d, lang.fingerprint(config), stored.global, stored.owner, other) then
        (d, Done(Duplicate))
      else if form != Verified then (d, Done(AuthReply(form)))
      else (d, RefreshAuthed(Refreshed(lang, stored, config, effective, source)))
  }

  /** Whether the connection is up, which decides if the refresh tears it down first. */
  function RefreshActiveSection(d: Shared, next: Record, c: Choice): (Shared, Phase) {
    var active := ActiveDebug(d, next.id);
    if active.Some? && !c.statFails then (d, DownLoad(next.id, Rewrite(next, active.value)))
    else (if active.Some? then d.(statFaults := d.statFaults + {next.id}) else d, RefreshWrite(next, None))
  }

  function RemoveSection(d: Shared, id: ConnectionId, form: Form, c: Choice): (Shared, Phase) {
    if ActiveDebug(d, id).Some? && !c.statFails then (d, Done(Busy))
    else if form != Verified then (d, Done(AuthReply(form)))
    else (d.(records := d.records - {id}, unreadable := d.unreadable - {id}), Done(Unit))
  }

  /** `resolve_connect_intent`. */
  function IntentSection(d: Shared, id: ConnectionId, debug: bool, reason: Reason): (Shared, Phase) {
    if id in d.unreadable then (d, Done(Failed))
    else if id !in d.records then (d, UpLoad(id, debug))
    else match reason
      case User =>
        var d' := if d.records[id].userDisconnected then Save(d, d.records[id].(userDisconnected := false)) else d;
        (d', UpLoad(id, debug))
      case Reconciliation => if d.records[id].userDisconnected then (d, Done(Unit)) else (d, UpLoad(id, debug))
  }

  function UpLoadSection(lang: Language, d: Shared, id: ConnectionId, debug: bool): (Shared, Phase) {
    if id in d.unreadable || id !in d.records then (d, Done(Failed)) else
    var stored := d.records[id];
    if !Reparses(lang, stored) then (d, Done(Stale))
    else if |stored.config.peers| != 1 then (d, Done(Failed))
    else if stored.interface in d.sockets then (d, UpWantClear(stored, debug))
    else (d, UpCheck(stored, debug))
  }

  /** The anti-adoption and idempotency check. A failing PreUp hook is a stop. */
  function UpCheckSection(d: Shared, stored: Record, debug: bool): (Shared, Phase) {
    if stored.interface !in d.sockets then (d, UpWantNetwork(stored, debug))
    else if stored.id !in d.markers || d.markers[stored.id].socket != d.sockets[stored.interface] then
      (d, Done(Conflict))
    else if d.markers[stored.id].fingerprint == stored.fingerprint then (d, UpOk(stored))
    else (d, Done(Mismatch(stored.id)))
  }

  function UpSpawnSection(lang: Language, d: Shared, stored: Record, debug: bool): (Shared, Phase) {
    if HelperOn(d, stored.interface) then (d, Done(Failed))
    else (Spawn(lang, d, stored), UpPost(stored, debug, |d.launches|))
  }

  /** PostUp, then the stat of the fresh socket. */
  function UpPostSection(d: Shared, stored: Record, debug: bool, c: Choice): (Shared, Phase) {
    if !c.ok then (d, UpWantRollback(stored))
    else if stored.interface in d.sockets then
      (d, UpSave(stored, Marker(stored.fingerprint, d.sockets[stored.interface], debug)))
    else (d, Done(Failed))
  }

  /** `mark_user_disconnected`. */
  function MarkSection(d: Shared, id: ConnectionId, byUser: bool): (Shared, Phase) {
    if byUser && id in d.unreadable then (d, Done(Failed))
    else if byUser && id in d.records then (Save(d, d.records[id].(userDisconnected := true)), DownLoad(id, Finish))
    else (d, DownLoad(id, Finish))
  }

  function DownRunSection(d: Shared, id: ConnectionId, k: Then, c: Choice): (Shared, Phase) {
    (DownEffect(d, InterfaceName(id), c), if c.ok then DownClear(id, k) else Done(Failed))
  }

  function AfterDown(id: ConnectionId, k: Then): Phase {
    match k
    case Finish => Done(Unit)
    case Reconnect(debug) => UpLoad(id, debug)
    case Rewrite(next, debug) => RefreshWrite(next, Some(debug))
  }

  function ReconnectSection(d: Shared, id: ConnectionId, c: Choice): (Shared, Phase) {
    var active := ActiveDebug(d, id);
    if active.Some? && !c.statFails then (d, DownLoad(id, Reconnect(active.value))) else (d, Done(NotActive))
  }

  function EditSection(lang: Language, d: Shared, id: ConnectionId, edit: Edit, uid: nat): (Shared, Phase) {
    if id in d.unreadable then (d, Done(Failed))
    else if id !in d.records then (d, Done(NotFound))
    else
      var stored := d.records[id];
      if !Authorized(stored, uid) then (d, Done(Denied)) else
      match edit
      case SetMode(mode, form) =>
        if Elevates(stored, mode) && form != Verified then (d, Done(AuthReply(form)))
        else if stored.mode == mode then (d, Done(Unit))
        else
          var flag := if mode == Automatic then false else stored.userDisconnected;
          var next := stored.(mode := mode, userDisconnected := flag);
          (Save(d, next), Done(Unit))
      case SetDns(enabled) => (Save(d, stored.(dnsDynamicStore := enabled)), Done(Unit))
      case SetLinks(links) =>
        var valid := lang.validate(links, stored.config);
        if valid.None? then (d, Done(InvalidLink)) else (Save(d, stored.(links := valid.value)), Done(Unit))
  }

  /** `clear_dead_active`: only a socket that answers, or a missing record, spares the marker. */
  function SweepSection(d: Shared, id: ConnectionId): (Shared, Phase) {
    var interface := InterfaceName(id);
    if (interface in d.sockets && d.sockets[interface] in d.live) || id !in d.records || id in d.unreadable then
      (d, Done(Unit))
    else (d.(markers := d.markers - {id}), Done(Unit))
  }

  /** Phases in which a thread has work to do that needs no further lock. */
  predicate Runnable(p: Phase) {
    Wants(p).None? && !p.Idle?
  }

  /** One section of a thread: the new shared state and the thread's next phase. */
  function Section(lang: Language, d: Shared, p: Phase, c: Choice): (Shared, Phase)
    requires Runnable(p)
  {
    match p
    case Done(_) => (d, Idle)
    case AddIndexed(add) => AddSection(lang, d, add, c)
    case AddHaveConn(next, _) => (Save(d, next), Done(Id(next.id)))
    case AddCreate(next) => (Save(d, next).(created := d.created + {next.id}), Done(Id(next.id)))
    case RefreshLocked(id, text, source, form, _) => RefreshSection(lang, d, id, text, source, form)
    case RefreshTouch(next) => (Save(d, next), Done(Unit))
    case RefreshAuthed(next) => RefreshActiveSection(d, next, c)
    case RefreshWrite(next, wasActive) =>
      (Save(d, next), if wasActive.Some? then UpLoad(next.id, wasActive.value) else Done(Unit))
    case RemoveIndexed(id, form, uid) =>
      (d, if id in d.unreadable then Done(Failed)
          else if id !in d.records then Done(NotFound)
          else if !Authorized(d.records[id], uid) then Done(Denied)
          else RemoveWantConn(id, form))
    case RemoveLocked(id, form) => RemoveSection(d, id, form, c)
    case ConnectIntent(id, debug, reason, _) => IntentSection(d, id, debug, reason)
    case UpLoad(id, debug) => UpLoadSection(lang, d, id, debug)
    case UpClear(stored, debug) => (ClearDead(d, stored.interface, c), UpCheck(stored, debug))
    case UpCheck(stored, debug) => UpCheckSection(d, stored, debug)
    case UpSpawn(stored, debug) => UpSpawnSection(lang, d, stored, debug)
    case UpPost(stored, debug, _) => UpPostSection(d, stored, debug, c)
    case UpRollback(stored) => (DownEffect(d, stored.interface, c), Done(Failed))
    case UpSave(stored, marker) => (d.(markers := d.markers[stored.id := marker]), UpOk(stored))
    case UpOk(_) => (d, Done(Unit))
    case DisconnectMark(id, byUser, _) => MarkSection(d, id, byUser)
    case DownLoad(id, k) => (d, if id in d.records && id !in d.unreadable then DownWantNetwork(id, k) else Done(Failed))
    case DownRun(id, k) => DownRunSection(d, id, k, c)
    case DownClear(id, k) => (d.(markers := d.markers - {id}), AfterDown(id, k))
    case ReconnectLocked(id, _) => ReconnectSection(d, id, c)
    case EditLocked(id, edit, uid) => EditSection(lang, d, id, edit, uid)
    case SweepRun(id) => (ClearDead(d, InterfaceName(id), c), SweepWantConn(id))
    case SweepLocked(id) => SweepSection(d, id)
  }

  // ---- the machine -------------------------------------------------------------------------------

  datatype State = State(shared: Shared, threads: map<nat, Phase>)

  function PhaseOf(s: State, t: nat): Phase {
    if t in s.threads then s.threads[t] else Idle
  }

  datatype Step =
    | Arrive(thread: nat, request: Request, uid: nat)
    | Acquire(thread: nat)
    | Run(thread: nat, choice: Choice)
    | Stop(thread: nat)
    | Crash(launch: nat)
    | Exit(launch: nat)
    | Wipe(interface: Interface)
    | Spoil(id: ConnectionId)
    | Heal(id: ConnectionId)

  /** The accept thread's check before a worker starts: the record loads and the caller may use it. */
  predicate AccessChecked(d: Shared, id: ConnectionId, uid: nat) {
    id in d.records && id !in d.unreadable && Authorized(d.records[id], uid)
  }

  /** The request is well formed, and its scope and owner are what the daemon fills in. */
  predicate AddAccepted(a: Add, uid: nat) {
    && (a.global ==> uid == 0) && (a.global <==> a.owner.None?)
    && (a.owner.Some? && uid != 0 ==> a.owner.value == uid) // root may act for the user who invoked sudo
    && (a.name.Some? ==> ValidName(a.name.value))
  }

  predicate Accepted(d: Shared, request: Request, uid: nat) {
    match request
    case AddRequest(a) => AddAccepted(a, uid)
    case RefreshRequest(id, _, _, _) => AccessChecked(d, id, uid)
    case ConnectRequest(id, _, _) => AccessChecked(d, id, uid)
    case DisconnectRequest(id, _) => AccessChecked(d, id, uid)
    case ReconnectRequest(id) => AccessChecked(d, id, uid)
    case RemoveRequest(_, _) => true
    case EditRequest(_, _) => true
    case SweepRequest(_) => true
    case BootRequest(id) => id in d.created // from an earlier listing
  }

  function FirstPhase(request: Request, uid: nat): Phase {
    match request
    case AddRequest(a) => AddWantIndex(a)
    case RefreshRequest(id, text, source, form) => RefreshWantIndex(id, text, source, form, uid)
    case RemoveRequest(id, form) => RemoveWantIndex(id, form, uid)
    case ConnectRequest(id, debug, reason) => ConnectWantConn(id, debug, reason, uid)
    case DisconnectRequest(id, byUser) => DisconnectWantConn(id, byUser, uid)
    case ReconnectRequest(id) => ReconnectWantConn(id, uid)
    case EditRequest(id, edit) => EditWantConn(id, edit, uid)
    case SweepRequest(id) => SweepWantNetwork(id)
    case BootRequest(id) => ConnectWantConn(id, false, Reconciliation, 0)
  }

  ghost predicate LockFree(s: State, lock: Lock) {
    forall t :: t in s.threads ==> !Holds(s.threads[t], lock)
  }

  ghost predicate Enabled(s: State, step: Step) {
    match step
    case Arrive(t, request, uid) => PhaseOf(s, t).Idle? && Accepted(s.shared, request, uid)
    case Acquire(t) => Wants(PhaseOf(s, t)).Some? && LockFree(s, Wants(PhaseOf(s, t)).value)
    case Run(t, _) => Runnable(PhaseOf(s, t))
    case Stop(t) => !PhaseOf(s, t).Idle?
    case Crash(n) => n in s.shared.live
    case Exit(n) => n in s.shared.live && n < |s.shared.launches|
    case Wipe(interface) => !HelperOn(s.shared, interface)
    case Spoil(id) => id in s.shared.records
    case Heal(id) => true
  }

  /** The shared state after a step of the environment. */
  function EnvironmentStep(d: Shared, step: Step): Shared
    requires step.Crash? || step.Exit? || step.Wipe? || step.Spoil? || step.Heal?
    requires step.Exit? ==> step.launch < |d.launches|
  {
    match step
    case Crash(n) => d.(live := d.live - {n})
    case Exit(n) =>
      var interface := d.launches[n].interface;
      d.(live := d.live - {n},
         sockets := if interface in d.sockets && d.sockets[interface] == n then d.sockets - {interface} else d.sockets)
    case Wipe(interface) => Unlink(d, interface)
    case Spoil(id) => d.(unreadable := d.unreadable + {id})
    case Heal(id) => d.(unreadable := d.unreadable - {id})
  }

  function Apply(lang: Language, s: State, step: Step): State
    requires Enabled(s, step)
  {
    match step
    case Arrive(t, request, uid) => s.(threads := s.threads[t := FirstPhase(request, uid)])
    case Acquire(t) => s.(threads := s.threads[t := Acquired(PhaseOf(s, t))])
    case Run(t, c) =>
      var (d, p) := Section(lang, s.shared, PhaseOf(s, t), c);
      State(d, s.threads[t := p])
    case Stop(t) => s.(threads := s.threads[t := Idle])
    case _ => s.(shared := EnvironmentStep(s.shared, step))
  }

  /** The state before the first request: an empty store and no helper. */
  const EMPTY_STORE: Shared := Shared(map[], {}, map[], map[], {}, [], {}, {}, false, {})

  predicate Init(s: State) {
    s == State(EMPTY_STORE, map[])
  }

  /** A run from `s` taking these steps is possible. */
  ghost predicate Possible(lang: Language, s: State, steps: seq<Step>)
    decreases |steps|
  {
    steps == [] || (Enabled(s, steps[0]) && Possible(lang, Apply(lang, s, steps[0]), steps[1..]))
  }

  /** The state such a run ends in. */
  ghost function End(lang: Language, s: State, steps: seq<Step>): State
    requires Possible(lang, s, steps)
    decreases |steps|
  {
    if steps == [] then s else End(lang, Apply(lang, s, steps[0]), steps[1..])
  }
}
