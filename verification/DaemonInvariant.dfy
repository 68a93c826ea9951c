/**
  What every reachable state of the daemon satisfies. `DataOk` speaks of the
  shared state, `ThreadOk` of what a thread in a given phase may rely on. A
  section changes the shared state only as its locks permit (`Guarantee`), and
  what the other threads rely on survives every such change (`Stable`).
 */
module DaemonInvariant {
  import opened Wrappers
  import opened Records
  import opened Daemon

  // ---- shared state -----------------------------------------------------------------------

  predicate RecordOk(lang: Language, d: Shared, id: ConnectionId, r: Record) {
    && r.id == id
    && SelfConsistent(lang, r)
    && id in d.created
    && NameOk(r.name)
  }

  predicate NameOk(name: Option<string>) {
    name.Some? ==> ValidName(name.value)
  }

  /** Two records differ in identity and interface, and in name unless `force` was used. */
  predicate Apart(forced: bool, r: Record, q: Record) {
    && !HasIdentity(r, q.fingerprint, q.global, q.owner)
    && r.interface != q.interface
    && (forced || q.name.None? || !HasName(r, q.name.value, q.global, q.owner))
  }

  predicate LaunchIs(d: Shared, n: nat, interface: Interface, fingerprint: string) {
    n < |d.launches| && d.launches[n].interface == interface && d.launches[n].fingerprint == fingerprint
  }

  ghost predicate RecordsOk(lang: Language, d: Shared) {
    forall id :: id in d.records ==> RecordOk(lang, d, id, d.records[id])
  }

  ghost predicate RecordsApart(d: Shared) {
    forall id, other :: id in d.records && other in d.records && id != other
      ==> Apart(d.forced, d.records[id], d.records[other])
  }

  ghost predicate MarkersOk(d: Shared) {
    forall id :: id in d.markers ==>
      id in d.created && LaunchIs(d, d.markers[id].socket, InterfaceName(id), d.markers[id].fingerprint)
  }

  ghost predicate SocketsOk(d: Shared) {
    forall i :: i in d.sockets ==> d.sockets[i] < |d.launches| && d.launches[d.sockets[i]].interface == i
  }

  /** At most one helper runs on an interface. */
  ghost predicate LiveOk(d: Shared) {
    && (forall n :: n in d.live ==> n < |d.launches|)
    && (forall m, n :: m in d.live && n in d.live && d.launches[m].interface == d.launches[n].interface ==> m == n)
  }

  predicate LaunchOk(lang: Language, launch: Launch) {
    var parsed := lang.parse(launch.rawConf);
    parsed.Some? && lang.fingerprint(parsed.value) == launch.fingerprint
  }

  ghost predicate LaunchesOk(lang: Language, d: Shared) {
    forall n :: 0 <= n < |d.launches| ==> LaunchOk(lang, d.launches[n])
  }

  /** The marker of `id` describes the socket that is on disk. */
  predicate Matching(d: Shared, id: ConnectionId) {
    && id in d.markers && InterfaceName(id) in d.sockets
    && d.markers[id].socket == d.sockets[InterfaceName(id)]
  }

  /** A matching marker carries the record's fingerprint, unless a refresh missed the tunnel. */
  ghost predicate MarkersCurrent(d: Shared) {
    forall id :: id in d.records && Matching(d, id) && id !in d.statFaults
      ==> d.markers[id].fingerprint == d.records[id].fingerprint
  }

  ghost predicate DataOk(lang: Language, d: Shared) {
    && d.created <= d.minted
    && RecordsOk(lang, d) && RecordsApart(d)
    && MarkersOk(d) && SocketsOk(d) && LiveOk(d) && LaunchesOk(lang, d)
    && MarkersCurrent(d)
  }

  // ---- threads ------------------------------------------------------------------------------

  /** A record read under the index lock: everything a refresh or another add could change still agrees. */
  ghost predicate CopyOk(lang: Language, d: Shared, next: Record) {
    && next.id in d.records && SameFixed(next, d.records[next.id])
    && RecordOk(lang, d, next.id, next)
    && (forall other :: other in d.records && other != next.id ==> Apart(d.forced, next, d.records[other]))
  }

  ghost predicate NewOk(lang: Language, d: Shared, next: Record) {
    && next.id !in d.created && next.id in d.minted && next.id !in d.markers && next.id !in d.records
    && RecordOk(lang, d.(created := d.created + {next.id}), next.id, next)
    && (forall other :: other in d.records ==> Apart(d.forced, next, d.records[other]))
  }

  predicate TouchOk(d: Shared, next: Record) {
    next.id in d.records && next == d.records[next.id].(sourcePath := next.sourcePath)
  }

  ghost predicate RefreshOk(lang: Language, d: Shared, next: Record) {
    && next.id in d.records && next.fingerprint != d.records[next.id].fingerprint
    && next == d.records[next.id].(
                 fingerprint := next.fingerprint, config := next.config, rawConf := next.rawConf,
                 sourcePath := next.sourcePath, links := next.links)
    && RecordOk(lang, d, next.id, next)
    && (forall other :: other in d.records && other != next.id ==> Apart(d.forced, next, d.records[other]))
  }

  /** The loaded record is the stored one, and has the one peer a connect accepts. */
  predicate Here(d: Shared, stored: Record) {
    stored.id in d.records && d.records[stored.id] == stored && |stored.config.peers| == 1
  }

  /** If the interface has a socket, it is this incarnation. */
  predicate OnlySocket(d: Shared, interface: Interface, n: nat) {
    interface in d.sockets ==> d.sockets[interface] == n
  }

  /** The access check a request passed still holds of the record under its id. */
  predicate Access(d: Shared, id: ConnectionId, uid: nat) {
    id in d.created && (id in d.records ==> Authorized(d.records[id], uid))
  }

  /** Id and caller of the phases that rely on an access check made before the lock. */
  function AccessOf(p: Phase): Option<(ConnectionId, nat)> {
    match p
    case RefreshWantIndex(id, _, _, _, uid) => Some((id, uid))
    case RefreshWantConn(id, _, _, _, uid) => Some((id, uid))
    case RefreshLocked(id, _, _, _, uid) => Some((id, uid))
    case ConnectWantConn(id, _, _, uid) => Some((id, uid))
    case ConnectIntent(id, _, _, uid) => Some((id, uid))
    case DisconnectWantConn(id, _, uid) => Some((id, uid))
    case DisconnectMark(id, _, uid) => Some((id, uid))
    case ReconnectWantConn(id, uid) => Some((id, uid))
    case ReconnectLocked(id, uid) => Some((id, uid))
    case _ => None
  }

  /** The record a connect in progress loaded. */
  function StoredOf(p: Phase): Option<Record> {
    match p
    case UpWantClear(stored, _) => Some(stored)
    case UpClear(stored, _) => Some(stored)
    case UpCheck(stored, _) => Some(stored)
    case UpWantNetwork(stored, _) => Some(stored)
    case UpSpawn(stored, _) => Some(stored)
    case UpPost(stored, _, _) => Some(stored)
    case UpWantRollback(stored) => Some(stored)
    case UpRollback(stored) => Some(stored)
    case UpSave(stored, _) => Some(stored)
    case UpOk(stored) => Some(stored)
    case _ => None
  }

  function RewriteIn(k: Then): Option<Record> {
    if k.Rewrite? then Some(k.next) else None
  }

  /** The record an authenticated refresh is going to write. */
  function RewriteOf(p: Phase): Option<Record> {
    match p
    case RefreshAuthed(next) => Some(next)
    case RefreshWrite(next, _) => Some(next)
    case DownLoad(_, k) => RewriteIn(k)
    case DownWantNetwork(_, k) => RewriteIn(k)
    case DownRun(_, k) => RewriteIn(k)
    case DownClear(_, k) => RewriteIn(k)
    case _ => None
  }

  /** The stored connection a phase knows to exist because of the locks it holds. */
  function PresentOf(p: Phase): Option<ConnectionId> {
    match p
    case RemoveWantConn(id, _) => Some(id)
    case RemoveLocked(id, _) => Some(id)
    case DownWantNetwork(id, _) => Some(id)
    case DownRun(id, _) => Some(id)
    case DownClear(id, _) => Some(id)
    case _ => None
  }

  predicate AddOk(a: Add) {
    (a.global <==> a.owner.None?) && NameOk(a.name)
  }

  /** The marker names a launch of the record's fingerprint, and no other incarnation has the socket. */
  predicate MarkedCurrent(d: Shared, stored: Record) {
    && stored.id in d.markers && d.markers[stored.id].fingerprint == stored.fingerprint
    && LaunchIs(d, d.markers[stored.id].socket, stored.interface, stored.fingerprint)
    && OnlySocket(d, stored.interface, d.markers[stored.id].socket)
  }

  predicate ReplyPart(d: Shared, p: Phase) {
    && (p.Done? ==> p.reply != Stale && (p.reply.Mismatch? ==> p.reply.id in d.statFaults))
    && (p.AddWantIndex? || p.AddIndexed? ==> AddOk(p.add))
    && (p.UpLoad? || p.DownLoad? ==> p.id in d.created)
  }

  ghost predicate AddPart(lang: Language, d: Shared, p: Phase) {
    && (p.AddWantConn? || p.AddHaveConn? ==> CopyOk(lang, d, p.next))
    && (p.AddCreate? ==> NewOk(lang, d, p.next))
  }

  predicate AccessPart(d: Shared, p: Phase) {
    && (AccessOf(p).Some? ==> Access(d, AccessOf(p).value.0, AccessOf(p).value.1))
    && (PresentOf(p).Some? ==> PresentOf(p).value in d.records)
    && (p.RefreshTouch? ==> TouchOk(d, p.next))
  }

  ghost predicate RewritePart(lang: Language, d: Shared, p: Phase) {
    RewriteOf(p).Some? ==> HoldsConnection(p) == Some(RewriteOf(p).value.id) && RefreshOk(lang, d, RewriteOf(p).value)
  }

  predicate StoredPart(d: Shared, p: Phase) {
    StoredOf(p).Some? ==> Here(d, StoredOf(p).value)
  }

  predicate SocketPart(d: Shared, p: Phase) {
    && (p.RefreshWrite? ==> p.next.id in d.statFaults || !Matching(d, p.next.id))
    && (p.UpWantNetwork? || p.UpSpawn? ==> p.stored.interface !in d.sockets)
    && (p.UpPost? ==>
         LaunchIs(d, p.launch, p.stored.interface, p.stored.fingerprint)
         && OnlySocket(d, p.stored.interface, p.launch))
    && (p.UpSave? ==>
          && p.marker.fingerprint == p.stored.fingerprint
          && LaunchIs(d, p.marker.socket, p.stored.interface, p.stored.fingerprint)
          && OnlySocket(d, p.stored.interface, p.marker.socket))
    && (p.UpOk? ==> MarkedCurrent(d, p.stored))
    && (p.DownClear? ==> InterfaceName(p.id) !in d.sockets && !HelperOn(d, InterfaceName(p.id)))
  }

  ghost predicate ThreadOk(lang: Language, d: Shared, p: Phase) {
    && ReplyPart(d, p) && AddPart(lang, d, p) && AccessPart(d, p)
    && RewritePart(lang, d, p) && StoredPart(d, p) && SocketPart(d, p)
  }

  // ---- what a section may change -----------------------------------------------------------------

  predicate SameRecord(d: Shared, d': Shared, id: ConnectionId) {
    (id in d.records <==> id in d'.records) && (id in d.records ==> d.records[id] == d'.records[id])
  }

  predicate SameMarker(d: Shared, d': Shared, id: ConnectionId) {
    (id in d.markers <==> id in d'.markers) && (id in d.markers ==> d.markers[id] == d'.markers[id])
  }

  /** The parts of a record that no request ever changes. */
  predicate SameOwner(a: Record, b: Record) {
    a.id == b.id && a.global == b.global && a.owner == b.owner && a.interface == b.interface
      && a.mtuOverride == b.mtuOverride
  }

  /** The locks that entitle a section to its changes. */
  datatype Locks = Locks(index: bool, connection: Option<ConnectionId>)

  function LocksOf(p: Phase): Locks {
    Locks(HoldsIndex(p), HoldsConnection(p))
  }

  /** The interface belongs to the stored connection whose lock is held. */
  predicate Owns(l: Locks, d: Shared, interface: Interface) {
    l.connection.Some? && l.connection.value in d.records && InterfaceName(l.connection.value) == interface
  }

  /** Records: only the locked one changes, none comes back, and identity changes only under the index lock. */
  ghost predicate RecordsGuarantee(l: Locks, d: Shared, d': Shared) {
    && (forall id :: id in d.created && l.connection != Some(id) ==> SameRecord(d, d', id))
    && (forall id :: id in d.created && id !in d.records ==> id !in d'.records)
    && (forall id :: id in d.records && id in d'.records ==> SameOwner(d.records[id], d'.records[id]))
    && (!l.index ==>
          && d'.records.Keys == d.records.Keys && d'.created == d.created && d'.minted == d.minted
          && forall id :: id in d.records ==>
               SameFixed(d.records[id], d'.records[id]) && d.records[id].name == d'.records[id].name)
  }

  ghost predicate RuntimeGuarantee(l: Locks, d: Shared, d': Shared) {
    && (forall id :: l.connection != Some(id) ==> SameMarker(d, d', id))
    && (forall id :: id in d'.markers && id !in d.markers ==> id in d.records)
    && (forall i :: i in d'.sockets ==> (i in d.sockets && d'.sockets[i] == d.sockets[i]) || Owns(l, d, i))
    && (forall n :: n in d'.live ==>
         n in d.live || (|d.launches| <= n < |d'.launches| && Owns(l, d, d'.launches[n].interface)))
    && d.launches <= d'.launches
  }

  ghost predicate HistoryGrows(d: Shared, d': Shared) {
    && d.created <= d'.created && d.minted <= d'.minted
    && d.statFaults <= d'.statFaults && (d.forced ==> d'.forced)
  }

  ghost predicate Guarantee(l: Locks, d: Shared, d': Shared) {
    RecordsGuarantee(l, d, d') && RuntimeGuarantee(l, d, d') && HistoryGrows(d, d')
  }

  predicate DisjointLocks(l: Locks, m: Locks) {
    !(l.index && m.index) && !(l.connection.Some? && l.connection == m.connection)
  }

  predicate Disjoint(p: Phase, q: Phase) {
    DisjointLocks(LocksOf(p), LocksOf(q)) && !(HoldsNetwork(p) && HoldsNetwork(q))
  }

  // ---- stability ----------------------------------------------------------------------------------------

  lemma ApartStable(d: Shared, d': Shared, l: Locks, next: Record)
    requires Guarantee(l, d, d') && !l.index
    requires forall other :: other in d.records && other != next.id ==> Apart(d.forced, next, d.records[other])
    ensures forall other :: other in d'.records && other != next.id ==> Apart(d'.forced, next, d'.records[other])
  {
    forall other | other in d'.records && other != next.id
      ensures Apart(d'.forced, next, d'.records[other])
    {
      assert other in d.records && SameFixed(d.records[other], d'.records[other]);
      assert Apart(d.forced, next, d.records[other]);
    }
  }

  lemma CopyStable(lang: Language, d: Shared, d': Shared, l: Locks, next: Record)
    requires Guarantee(l, d, d') && !l.index && CopyOk(lang, d, next)
    ensures CopyOk(lang, d', next)
  {
    ApartStable(d, d', l, next);
  }

  lemma NewStable(lang: Language, d: Shared, d': Shared, l: Locks, next: Record)
    requires Guarantee(l, d, d') && !l.index && NewOk(lang, d, next)
    ensures NewOk(lang, d', next)
  {
    ApartStable(d, d', l, next);
  }

  lemma RefreshStable(lang: Language, d: Shared, d': Shared, l: Locks, next: Record)
    requires RecordsOk(lang, d) && Guarantee(l, d, d') && RefreshOk(lang, d, next)
    requires !l.index && l.connection != Some(next.id)
    ensures RefreshOk(lang, d', next)
  {
    assert SameRecord(d, d', next.id);
    ApartStable(d, d', l, next);
  }

  /** No two stored connections share an interface. */
  ghost predicate InterfacesApart(d: Shared) {
    forall id, other :: id in d.records && other in d.records && id != other
      ==> InterfaceName(id) != InterfaceName(other)
  }

  lemma DistinctInterfaces(lang: Language, d: Shared)
    requires RecordsOk(lang, d) && RecordsApart(d)
    ensures InterfacesApart(d)
  {
    forall id, other | id in d.records && other in d.records && id != other
      ensures InterfaceName(id) != InterfaceName(other)
    {
      assert Apart(d.forced, d.records[id], d.records[other]);
      assert RecordOk(lang, d, id, d.records[id]) && RecordOk(lang, d, other, d.records[other]);
    }
  }

  /** Nobody else starts anything on the interface of a stored connection whose lock is held. */
  lemma InterfaceStable(d: Shared, d': Shared, l: Locks, id: ConnectionId)
    requires InterfacesApart(d) && RuntimeGuarantee(l, d, d') && LiveOk(d) && id in d.records
      && l.connection != Some(id)
    ensures InterfaceName(id) in d'.sockets ==>
      InterfaceName(id) in d.sockets && d'.sockets[InterfaceName(id)] == d.sockets[InterfaceName(id)]
    ensures HelperOn(d', InterfaceName(id)) ==> HelperOn(d, InterfaceName(id))
  {
    assert !Owns(l, d, InterfaceName(id));
    if HelperOn(d', InterfaceName(id)) {
      var n :| n in d'.live && n < |d'.launches| && d'.launches[n].interface == InterfaceName(id);
      assert n in d.live && d.launches[n] == d'.launches[n];
    }
  }

  lemma AddStable(lang: Language, d: Shared, d': Shared, l: Locks, q: Phase)
    requires Guarantee(l, d, d') && DisjointLocks(l, LocksOf(q)) && AddPart(lang, d, q)
    ensures AddPart(lang, d', q)
  {
    if q.AddWantConn? || q.AddHaveConn? {
      CopyStable(lang, d, d', l, q.next);
    } else if q.AddCreate? {
      NewStable(lang, d, d', l, q.next);
    }
  }

  lemma AccessStays(l: Locks, d: Shared, d': Shared, id: ConnectionId, uid: nat)
    requires Guarantee(l, d, d') && Access(d, id, uid)
    ensures Access(d', id, uid)
  {
    hide RuntimeGuarantee;
  }

  lemma PresentStays(lang: Language, d: Shared, d': Shared, l: Locks, q: Phase)
    requires RecordsOk(lang, d) && Guarantee(l, d, d') && DisjointLocks(l, LocksOf(q)) && PresentOf(q).Some?
    requires PresentOf(q).value in d.records
    ensures PresentOf(q).value in d'.records
  {
    hide RuntimeGuarantee, SelfConsistent, NameOk, HoldsNetwork;
    var id := PresentOf(q).value;
    assert RecordOk(lang, d, id, d.records[id]);
    PresentHolds(q);
    if l.connection != Some(id) {
      assert SameRecord(d, d', id);
    }
  }

  /** A phase that knows a connection to be stored has its lock, or the index lock. */
  lemma PresentHolds(q: Phase)
    ensures PresentOf(q).Some? ==> HoldsIndex(q) || HoldsConnection(q) == PresentOf(q)
  {
  }

  lemma TouchStays(lang: Language, d: Shared, d': Shared, l: Locks, q: Phase)
    requires RecordsOk(lang, d) && Guarantee(l, d, d') && DisjointLocks(l, LocksOf(q)) && q.RefreshTouch?
    requires TouchOk(d, q.next)
    ensures TouchOk(d', q.next)
  {
    hide RuntimeGuarantee, SelfConsistent, NameOk;
    assert RecordOk(lang, d, q.next.id, d.records[q.next.id]);
    assert SameRecord(d, d', q.next.id);
  }

  lemma AccessStable(lang: Language, d: Shared, d': Shared, l: Locks, q: Phase)
    requires RecordsOk(lang, d) && Guarantee(l, d, d') && DisjointLocks(l, LocksOf(q)) && AccessPart(d, q)
    ensures AccessPart(d', q)
  {
    hide RecordsOk, Guarantee, DisjointLocks, LocksOf, Access, TouchOk, AccessOf, PresentOf;
    if AccessOf(q).Some? {
      AccessStays(l, d, d', AccessOf(q).value.0, AccessOf(q).value.1);
    }
    if PresentOf(q).Some? {
      PresentStays(lang, d, d', l, q);
    }
    if q.RefreshTouch? {
      TouchStays(lang, d, d', l, q);
    }
  }

  lemma RewriteStable(lang: Language, d: Shared, d': Shared, l: Locks, q: Phase)
    requires RecordsOk(lang, d) && Guarantee(l, d, d') && DisjointLocks(l, LocksOf(q)) && RewritePart(lang, d, q)
    ensures RewritePart(lang, d', q)
  {
    if RewriteOf(q).Some? {
      RefreshStable(lang, d, d', l, RewriteOf(q).value);
    }
  }

  lemma StoredStable(lang: Language, d: Shared, d': Shared, l: Locks, q: Phase)
    requires RecordsOk(lang, d) && Guarantee(l, d, d') && DisjointLocks(l, LocksOf(q)) && StoredPart(d, q)
    ensures StoredPart(d', q)
  {
    if StoredOf(q).Some? {
      assert HoldsConnection(q) == Some(StoredOf(q).value.id);
      assert SameRecord(d, d', StoredOf(q).value.id);
    }
  }

  lemma StoredSocketStable(d: Shared, d': Shared, l: Locks, q: Phase)
    requires InterfacesApart(d) && LiveOk(d) && RuntimeGuarantee(l, d, d') && DisjointLocks(l, LocksOf(q))
    requires StoredOf(q).Some? && StoredPart(d, q) && SocketPart(d, q)
    requires StoredOf(q).value.interface == InterfaceName(StoredOf(q).value.id)
    ensures SocketPart(d', q)
  {
    assert HoldsConnection(q) == Some(StoredOf(q).value.id);
    InterfaceStable(d, d', l, StoredOf(q).value.id);
    assert SameMarker(d, d', StoredOf(q).value.id);
  }

  lemma UnlaunchedSocketStable(d: Shared, d': Shared, l: Locks, q: Phase, id: ConnectionId)
    requires InterfacesApart(d) && LiveOk(d) && RuntimeGuarantee(l, d, d') && HistoryGrows(d, d')
      && DisjointLocks(l, LocksOf(q))
    requires (q.RefreshWrite? && id == q.next.id) || (q.DownClear? && id == q.id)
    requires id in d.records && SocketPart(d, q)
    ensures SocketPart(d', q)
  {
    InterfaceStable(d, d', l, id);
    assert SameMarker(d, d', id);
  }

  lemma SocketStable(d: Shared, d': Shared, l: Locks, q: Phase)
    requires InterfacesApart(d) && LiveOk(d) && RuntimeGuarantee(l, d, d') && HistoryGrows(d, d')
      && DisjointLocks(l, LocksOf(q))
    requires StoredPart(d, q) && SocketPart(d, q)
    requires StoredOf(q).Some? ==> StoredOf(q).value.interface == InterfaceName(StoredOf(q).value.id)
    requires q.RefreshWrite? ==> q.next.id in d.records
    requires q.DownClear? ==> q.id in d.records
    ensures SocketPart(d', q)
  {
    if StoredOf(q).Some? {
      StoredSocketStable(d, d', l, q);
    } else if q.RefreshWrite? {
      UnlaunchedSocketStable(d, d', l, q, q.next.id);
    } else if q.DownClear? {
      UnlaunchedSocketStable(d, d', l, q, q.id);
    }
  }

  lemma StoredInterface(lang: Language, d: Shared, q: Phase)
    requires RecordsOk(lang, d) && StoredPart(d, q) && StoredOf(q).Some?
    ensures StoredOf(q).value.interface == InterfaceName(StoredOf(q).value.id)
  {
  }

  /** What a thread relies on survives every change another thread's locks permit. */
  lemma Stable(lang: Language, d: Shared, d': Shared, l: Locks, q: Phase)
    requires DataOk(lang, d) && Guarantee(l, d, d') && DisjointLocks(l, LocksOf(q)) && ThreadOk(lang, d, q)
    ensures ThreadOk(lang, d', q)
  {
    AddStable(lang, d, d', l, q);
    AccessStable(lang, d, d', l, q);
    RewriteStable(lang, d, d', l, q);
    StoredStable(lang, d, d', l, q);
    RuntimeStable(lang, d, d', l, q);
    ReplyStable(d, d', q);
  }

  lemma PresentFacts(lang: Language, d: Shared, q: Phase)
    requires AccessPart(d, q) && RewritePart(lang, d, q)
    ensures q.RefreshWrite? ==> q.next.id in d.records
    ensures q.DownClear? ==> q.id in d.records
  {
  }

  lemma RuntimeStable(lang: Language, d: Shared, d': Shared, l: Locks, q: Phase)
    requires DataOk(lang, d) && RuntimeGuarantee(l, d, d') && HistoryGrows(d, d') && DisjointLocks(l, LocksOf(q))
      && ThreadOk(lang, d, q)
    ensures SocketPart(d', q)
  {
    DistinctInterfaces(lang, d);
    PresentFacts(lang, d, q);
    if StoredOf(q).Some? {
      StoredInterface(lang, d, q);
    }
    SocketStable(d, d', l, q);
  }

  lemma ReplyStable(d: Shared, d': Shared, q: Phase)
    requires HistoryGrows(d, d') && ReplyPart(d, q)
    ensures ReplyPart(d', q)
  {
  }
}
