/** Every effect a section can have on the shared state keeps `DataOk` and the guarantee of its locks. */
module DaemonEffects {
  import opened Wrappers
  import opened Records
  import opened Daemon
  import opened DaemonInvariant

  /** The outcome of a section as far as the shared state is concerned. */
  ghost predicate Preserved(lang: Language, l: Locks, d: Shared, d': Shared) {
    DataOk(lang, d') && Guarantee(l, d, d')
  }

  lemma Unchanged(lang: Language, l: Locks, d: Shared)
    requires DataOk(lang, d)
    ensures Preserved(lang, l, d, d)
  {
  }

  /** Readability plays no part in the invariant. */
  lemma Readability(lang: Language, l: Locks, d: Shared, unreadable: set<ConnectionId>)
    requires DataOk(lang, d)
    ensures Preserved(lang, l, d, d.(unreadable := unreadable))
  {
    var d' := d.(unreadable := unreadable);
    assert RecordsOk(lang, d') && RecordsApart(d') && LaunchesOk(lang, d');
    assert MarkersCurrent(d') by {
      forall id | id in d'.records && Matching(d', id) && id !in d'.statFaults
        ensures d'.markers[id].fingerprint == d'.records[id].fingerprint
      {
        assert Matching(d, id);
      }
    }
  }

  lemma History(lang: Language, l: Locks, d: Shared, d': Shared)
    requires DataOk(lang, d) && HistoryGrows(d, d')
    requires d' == d.(minted := d'.minted, forced := d'.forced, statFaults := d'.statFaults)
    requires d'.minted == d.minted || l.index
    ensures Preserved(lang, l, d, d')
  {
    hide SelfConsistent, NameOk;
    assert RecordsOk(lang, d') by {
      forall id | id in d'.records
        ensures RecordOk(lang, d', id, d'.records[id])
      {
        assert RecordOk(lang, d, id, d.records[id]);
      }
    }
    assert RecordsApart(d') by {
      forall id, other | id in d'.records && other in d'.records && id != other
        ensures Apart(d'.forced, d'.records[id], d'.records[other])
      {
        assert Apart(d.forced, d.records[id], d.records[other]);
      }
    }
    assert LaunchesOk(lang, d') by {
      forall n | 0 <= n < |d'.launches|
        ensures LaunchOk(lang, d'.launches[n])
      {
        assert LaunchOk(lang, d.launches[n]);
      }
    }
    assert MarkersCurrent(d') by {
      forall id | id in d'.records && Matching(d', id) && id !in d'.statFaults
        ensures d'.markers[id].fingerprint == d'.records[id].fingerprint
      {
        assert Matching(d, id);
      }
    }
  }

  // ---- records ------------------------------------------------------------------------------

  /** What a write of `next` over its own record needs. */
  ghost predicate Writable(lang: Language, l: Locks, d: Shared, next: Record) {
    && next.id in d.records && l.connection == Some(next.id)
    && SameOwner(d.records[next.id], next)
    && RecordOk(lang, d, next.id, next)
    && (forall other :: other in d.records && other != next.id ==> Apart(d.forced, next, d.records[other]))
    && (l.index || (SameFixed(d.records[next.id], next) && d.records[next.id].name == next.name))
    && (next.fingerprint == d.records[next.id].fingerprint || next.id in d.statFaults || !Matching(d, next.id))
  }

  lemma SaveRecords(lang: Language, l: Locks, d: Shared, next: Record)
    requires DataOk(lang, d) && Writable(lang, l, d, next)
    ensures RecordsOk(lang, Save(d, next)) && RecordsApart(Save(d, next))
  {
    var d' := Save(d, next);
    forall id | id in d'.records
      ensures RecordOk(lang, d', id, d'.records[id])
    {
      assert id != next.id ==> RecordOk(lang, d, id, d.records[id]);
    }
    forall id, other | id in d'.records && other in d'.records && id != other
      ensures Apart(d'.forced, d'.records[id], d'.records[other])
    {
      if id == next.id {
        assert Apart(d.forced, next, d.records[other]);
      } else if other == next.id {
        assert Apart(d.forced, next, d.records[id]);
      } else {
        assert Apart(d.forced, d.records[id], d.records[other]);
      }
    }
  }

  lemma SaveMarkersCurrent(lang: Language, l: Locks, d: Shared, next: Record)
    requires DataOk(lang, d) && Writable(lang, l, d, next)
    ensures MarkersCurrent(Save(d, next))
  {
    var d' := Save(d, next);
    forall id | id in d'.records && Matching(d', id) && id !in d'.statFaults
      ensures d'.markers[id].fingerprint == d'.records[id].fingerprint
    {
      assert Matching(d, id);
    }
  }

  lemma SaveGuarantee(lang: Language, l: Locks, d: Shared, next: Record)
    requires Writable(lang, l, d, next)
    ensures Guarantee(l, d, Save(d, next))
  {
    hide RecordsGuarantee, RecordOk, Apart;
    SaveRecordsGuarantee(lang, l, d, next);
  }

  lemma SaveRecordsGuarantee(lang: Language, l: Locks, d: Shared, next: Record)
    requires Writable(lang, l, d, next)
    ensures RecordsGuarantee(l, d, Save(d, next))
  {
    hide RecordOk, Apart;
    assert Save(d, next).records.Keys == d.records.Keys;
  }

  lemma SaveUpdate(lang: Language, l: Locks, d: Shared, next: Record)
    requires DataOk(lang, d) && Writable(lang, l, d, next)
    ensures Preserved(lang, l, d, Save(d, next))
  {
    SaveRecords(lang, l, d, next);
    SaveMarkersCurrent(lang, l, d, next);
    SaveGuarantee(lang, l, d, next);
    var d' := Save(d, next);
    assert MarkersOk(d') && SocketsOk(d') && LiveOk(d') && LaunchesOk(lang, d');
  }

  /** A change of metadata that leaves identity, name and interface alone. */
  lemma SaveMetadata(lang: Language, l: Locks, d: Shared, next: Record)
    requires DataOk(lang, d) && next.id in d.records && l.connection == Some(next.id)
    requires SameFixed(d.records[next.id], next) && d.records[next.id].name == next.name
    requires RecordOk(lang, d, next.id, next)
    ensures Preserved(lang, l, d, Save(d, next))
  {
    forall other | other in d.records && other != next.id
      ensures Apart(d.forced, next, d.records[other])
    {
      assert Apart(d.forced, d.records[next.id], d.records[other]);
    }
    SaveUpdate(lang, l, d, next);
  }

  function Created(d: Shared, next: Record): Shared {
    Save(d, next).(created := d.created + {next.id})
  }

  lemma CreateRecords(lang: Language, d: Shared, next: Record)
    requires DataOk(lang, d) && NewOk(lang, d, next)
    ensures RecordsOk(lang, Created(d, next)) && RecordsApart(Created(d, next))
  {
    var d' := Created(d, next);
    forall id | id in d'.records
      ensures RecordOk(lang, d', id, d'.records[id])
    {
      assert id != next.id ==> RecordOk(lang, d, id, d.records[id]);
    }
    forall id, other | id in d'.records && other in d'.records && id != other
      ensures Apart(d'.forced, d'.records[id], d'.records[other])
    {
      if id == next.id {
        assert Apart(d.forced, next, d.records[other]);
      } else if other == next.id {
        assert Apart(d.forced, next, d.records[id]);
      } else {
        assert Apart(d.forced, d.records[id], d.records[other]);
      }
    }
  }

  lemma CreateMarkers(lang: Language, d: Shared, next: Record)
    requires DataOk(lang, d) && next.id !in d.markers
    ensures MarkersCurrent(Created(d, next))
  {
    var d' := Created(d, next);
    forall id | id in d'.records && Matching(d', id) && id !in d'.statFaults
      ensures d'.markers[id].fingerprint == d'.records[id].fingerprint
    {
      assert Matching(d, id);
    }
  }

  lemma CreateGuarantee(l: Locks, d: Shared, next: Record)
    requires l.index && next.id !in d.created && next.id !in d.records
    ensures Guarantee(l, d, Created(d, next))
  {
  }

  lemma Create(lang: Language, l: Locks, d: Shared, next: Record)
    requires DataOk(lang, d) && NewOk(lang, d, next) && l.index
    ensures Preserved(lang, l, d, Created(d, next))
  {
    CreateRecords(lang, d, next);
    CreateMarkers(lang, d, next);
    CreateGuarantee(l, d, next);
    var d' := Created(d, next);
    assert MarkersOk(d') && SocketsOk(d') && LiveOk(d') && LaunchesOk(lang, d');
  }

  function Removed(d: Shared, id: ConnectionId): Shared {
    d.(records := d.records - {id}, unreadable := d.unreadable - {id})
  }

  lemma RemoveRecords(lang: Language, d: Shared, id: ConnectionId)
    requires DataOk(lang, d)
    ensures RecordsOk(lang, Removed(d, id)) && RecordsApart(Removed(d, id))
  {
    var d' := Removed(d, id);
    forall other | other in d'.records
      ensures RecordOk(lang, d', other, d'.records[other])
    {
      assert RecordOk(lang, d, other, d.records[other]);
    }
    forall a, b | a in d'.records && b in d'.records && a != b
      ensures Apart(d'.forced, d'.records[a], d'.records[b])
    {
      assert Apart(d.forced, d.records[a], d.records[b]);
    }
  }

  lemma RemoveMarkers(lang: Language, d: Shared, id: ConnectionId)
    requires DataOk(lang, d)
    ensures MarkersCurrent(Removed(d, id))
  {
    var d' := Removed(d, id);
    forall other | other in d'.records && Matching(d', other) && other !in d'.statFaults
      ensures d'.markers[other].fingerprint == d'.records[other].fingerprint
    {
      assert Matching(d, other);
    }
  }

  lemma RemoveGuarantee(l: Locks, d: Shared, id: ConnectionId)
    requires l.index && l.connection == Some(id)
    ensures Guarantee(l, d, Removed(d, id))
  {
  }

  lemma Remove(lang: Language, l: Locks, d: Shared, id: ConnectionId)
    requires DataOk(lang, d) && l.index && l.connection == Some(id)
    ensures Preserved(lang, l, d, Removed(d, id))
  {
    RemoveRecords(lang, d, id);
    RemoveMarkers(lang, d, id);
    RemoveGuarantee(l, d, id);
    var d' := Removed(d, id);
    assert MarkersOk(d') && SocketsOk(d') && LiveOk(d') && LaunchesOk(lang, d');
  }

  // ---- markers, sockets and helpers -----------------------------------------------------------

  lemma RuntimeOnly(lang: Language, l: Locks, d: Shared, d': Shared)
    requires DataOk(lang, d)
    requires d' == d.(markers := d'.markers, sockets := d'.sockets, live := d'.live, launches := d'.launches)
    ensures RecordsOk(lang, d') && RecordsApart(d') && RecordsGuarantee(l, d, d') && HistoryGrows(d, d')
  {
    forall id | id in d'.records
      ensures RecordOk(lang, d', id, d'.records[id])
    {
      assert RecordOk(lang, d, id, d.records[id]);
    }
    forall id, other | id in d'.records && other in d'.records && id != other
      ensures Apart(d'.forced, d'.records[id], d'.records[other])
    {
      assert Apart(d.forced, d.records[id], d.records[other]);
    }
  }

  /** `d'` has the markers of `d` except perhaps at `id`. */
  predicate MarkersAt(d: Shared, d': Shared, id: ConnectionId) {
    d' == d.(markers := d'.markers) && d'.markers - {id} == d.markers - {id}
  }

  lemma MarkerGuarantee(l: Locks, d: Shared, d': Shared, id: ConnectionId)
    requires MarkersAt(d, d', id) && l.connection == Some(id)
    requires id in d'.markers && id !in d.markers ==> id in d.records
    ensures RuntimeGuarantee(l, d, d')
  {
    forall other | other != id
      ensures SameMarker(d, d', other)
    {
      assert other in d.markers - {id} <==> other in d'.markers - {id};
      assert other in d.markers ==> (d.markers - {id})[other] == (d'.markers - {id})[other];
    }
    assert forall other :: other in d'.markers && other !in d.markers ==> other == id || SameMarker(d, d', other);
  }

  lemma ClearMarker(lang: Language, l: Locks, d: Shared, id: ConnectionId)
    requires DataOk(lang, d) && l.connection == Some(id)
    ensures Preserved(lang, l, d, d.(markers := d.markers - {id}))
  {
    var d' := d.(markers := d.markers - {id});
    RuntimeOnly(lang, l, d, d');
    MarkerGuarantee(l, d, d', id);
    assert LaunchesOk(lang, d');
    forall other | other in d'.records && Matching(d', other) && other !in d'.statFaults
      ensures d'.markers[other].fingerprint == d'.records[other].fingerprint
    {
      assert Matching(d, other);
    }
  }

  lemma PutMarkerData(lang: Language, d: Shared, id: ConnectionId, m: Marker)
    requires DataOk(lang, d) && id in d.records
    requires LaunchIs(d, m.socket, InterfaceName(id), m.fingerprint) && m.fingerprint == d.records[id].fingerprint
    ensures var d' := d.(markers := d.markers[id := m]);
      MarkersOk(d') && MarkersCurrent(d')
  {
    var d' := d.(markers := d.markers[id := m]);
    assert RecordOk(lang, d, id, d.records[id]);
    forall other | other in d'.markers
      ensures other in d'.created
        && LaunchIs(d', d'.markers[other].socket, InterfaceName(other), d'.markers[other].fingerprint)
    {
      assert other != id ==> LaunchIs(d, d.markers[other].socket, InterfaceName(other), d.markers[other].fingerprint);
    }
    forall other | other in d'.records && Matching(d', other) && other !in d'.statFaults
      ensures d'.markers[other].fingerprint == d'.records[other].fingerprint
    {
      assert other != id ==> Matching(d, other);
    }
  }

  lemma PutMarker(lang: Language, l: Locks, d: Shared, id: ConnectionId, m: Marker)
    requires DataOk(lang, d) && l.connection == Some(id) && id in d.records
    requires LaunchIs(d, m.socket, InterfaceName(id), m.fingerprint) && m.fingerprint == d.records[id].fingerprint
    ensures Preserved(lang, l, d, d.(markers := d.markers[id := m]))
  {
    var d' := d.(markers := d.markers[id := m]);
    RuntimeOnly(lang, l, d, d');
    PutMarkerData(lang, d, id, m);
    MarkerGuarantee(l, d, d', id);
    assert LaunchesOk(lang, d');
  }

  /** Sockets and helpers may go at any time, whoever removes them. */
  lemma Shrink(lang: Language, l: Locks, d: Shared, d': Shared)
    requires DataOk(lang, d) && d' == d.(sockets := d'.sockets, live := d'.live)
    requires d'.live <= d.live
    requires forall i :: i in d'.sockets ==> i in d.sockets && d'.sockets[i] == d.sockets[i]
    ensures Preserved(lang, l, d, d')
  {
    RuntimeOnly(lang, l, d, d');
    assert LaunchesOk(lang, d') && MarkersOk(d');
    assert MarkersCurrent(d') by {
      forall other | other in d'.records && Matching(d', other) && other !in d'.statFaults
        ensures d'.markers[other].fingerprint == d'.records[other].fingerprint
      {
        assert Matching(d, other);
      }
    }
  }

  lemma SpawnRuntime(lang: Language, d: Shared, stored: Record)
    requires DataOk(lang, d) && Here(d, stored)
    requires !HelperOn(d, stored.interface)
    ensures var d' := Spawn(lang, d, stored);
      MarkersOk(d') && SocketsOk(d') && LiveOk(d') && MarkersCurrent(d')
  {
    var d' := Spawn(lang, d, stored);
    forall id | id in d'.markers
      ensures LaunchIs(d', d'.markers[id].socket, InterfaceName(id), d'.markers[id].fingerprint)
    {
      assert LaunchIs(d, d.markers[id].socket, InterfaceName(id), d.markers[id].fingerprint);
    }
    forall id | id in d'.records && Matching(d', id) && id !in d'.statFaults
      ensures d'.markers[id].fingerprint == d'.records[id].fingerprint
    {
      assert LaunchIs(d, d.markers[id].socket, InterfaceName(id), d.markers[id].fingerprint);
      assert Matching(d, id);
    }
    forall m, n | m in d'.live && n in d'.live && d'.launches[m].interface == d'.launches[n].interface
      ensures m == n
    {
      assert m in d.live ==> d'.launches[m] == d.launches[m];
      assert n in d.live ==> d'.launches[n] == d.launches[n];
    }
  }

  lemma SpawnLaunches(lang: Language, d: Shared, stored: Record)
    requires DataOk(lang, d) && Here(d, stored)
    ensures LaunchesOk(lang, Spawn(lang, d, stored))
  {
    var d' := Spawn(lang, d, stored);
    assert RecordOk(lang, d, stored.id, stored);
    forall n | 0 <= n < |d'.launches|
      ensures LaunchOk(lang, d'.launches[n])
    {
      assert n < |d.launches| ==> LaunchOk(lang, d.launches[n]);
    }
  }

  lemma SpawnKept(lang: Language, l: Locks, d: Shared, stored: Record)
    requires DataOk(lang, d) && Here(d, stored) && l.connection == Some(stored.id)
    requires !HelperOn(d, stored.interface)
    ensures Preserved(lang, l, d, Spawn(lang, d, stored))
  {
    var d' := Spawn(lang, d, stored);
    RuntimeOnly(lang, l, d, d');
    SpawnRuntime(lang, d, stored);
    SpawnLaunches(lang, d, stored);
    assert RecordOk(lang, d, stored.id, stored);
    assert Owns(l, d, stored.interface);
    assert RuntimeGuarantee(l, d, d');
  }
}
