/**
  Runs that show where a promise of the daemon stops. A resubmission that
  overlaps a disconnect loses the disconnect, and a refresh that overlooks a
  running tunnel leads to the fingerprint-mismatch answer.
 */
module DaemonWitness {
  import opened Wrappers
  import opened Records
  import opened Daemon
  import opened DaemonInvariant
  import opened DaemonSections
  import opened DaemonSafety
  import opened DaemonGuarantees
  import opened DaemonRuns
  import opened DaemonDisconnect

  // ---- a reconciliation connect ----------------------------------------------------------------------

  /** The connection can be brought up: stored, readable, one peer, nothing on its interface. */
  predicate Ready(lang: Language, d: Shared, id: ConnectionId) {
    && id in d.records && id !in d.unreadable && d.records[id].id == id && d.records[id].interface == InterfaceName(id)
    && Reparses(lang, d.records[id]) && |d.records[id].config.peers| == 1
    && Quiet(d, id)
  }

  /** A connect for reconciliation, up to its check of the socket. */
  lemma ReconciliationChecks(lang: Language, d: Shared, m: map<nat, Phase>, t: nat, id: ConnectionId)
    requires Ready(lang, d, id) && !d.records[id].userDisconnected && IdleIn(m, t) && FreeOf(m, t, Connection(id))
    ensures Goes(lang, Calm(id), State(d, m), At(d, m, t, UpWantNetwork(d.records[id], false)))
  {
    hide Goes, FreeOf, At, Ready;
    var s, c := State(d, m), Good(id);
    var first := ConnectWantConn(id, false, Reconciliation, 0);
    ReadyAdmits(lang, d, id);
    Arrives(lang, Calm(id), d, m, t, ConnectRequest(id, false, Reconciliation), 0);
    Acquires(lang, Calm(id), d, m, t, first);
    GoesOn(lang, Calm(id), s, At(d, m, t, first), At(d, m, t, Acquired(first)));
    Runs(lang, Calm(id), d, m, t, Acquired(first), c);
    GoesOn(lang, Calm(id), s, At(d, m, t, Acquired(first)), At(d, m, t, UpLoad(id, false)));
    LoadedChecks(lang, Calm(id), d, m, t, id, false);
    GoesOn(lang, Calm(id), s, At(d, m, t, UpLoad(id, false)), At(d, m, t, UpWantNetwork(d.records[id], false)));
  }

  /** Root may connect a ready record, and a reconciliation goes on with it. */
  lemma ReadyAdmits(lang: Language, d: Shared, id: ConnectionId)
    requires Ready(lang, d, id)
    ensures AccessChecked(d, id, 0)
  {
  }

  /** From the load of a ready record to the lock for its launch. */
  lemma LoadedChecks(lang: Language, rule: Rule, d: Shared, m: map<nat, Phase>, t: nat, id: ConnectionId, debug: bool)
    requires Ready(lang, d, id) && rule.Calm?
    ensures Goes(lang, rule, At(d, m, t, UpLoad(id, debug)), At(d, m, t, UpWantNetwork(d.records[id], debug)))
  {
    hide Goes, HelperOn, Reparses, At;
    var c, stored := Good(id), d.records[id];
    Runs(lang, rule, d, m, t, UpLoad(id, debug), c);
    Runs(lang, rule, d, m, t, UpCheck(stored, debug), c);
    GoesOn(lang, rule, At(d, m, t, UpLoad(id, debug)), At(d, m, t, UpCheck(stored, debug)),
           At(d, m, t, UpWantNetwork(stored, debug)));
  }

  /** The rest of the connect: the helper is started. */
  lemma ConnectSpawns(
      lang: Language, d: Shared, m: map<nat, Phase>, t: nat, id: ConnectionId, stored: Record, debug: bool)
    requires !HelperOn(d, stored.interface) && FreeOf(m, t, Network)
    ensures Goes(lang, Calm(id), At(d, m, t, UpWantNetwork(stored, debug)),
                 At(Spawn(lang, d, stored), m, t, UpPost(stored, debug, |d.launches|)))
  {
    hide Goes, FreeOf, HelperOn, At, Spawn;
    var p := UpWantNetwork(stored, debug);
    Acquires(lang, Calm(id), d, m, t, p);
    Runs(lang, Calm(id), d, m, t, Acquired(p), Good(id));
    GoesOn(lang, Calm(id), At(d, m, t, p), At(d, m, t, Acquired(p)),
           At(Spawn(lang, d, stored), m, t, UpPost(stored, debug, |d.launches|)));
  }

  lemma ReconciliationBringsUp(lang: Language, d: Shared, m: map<nat, Phase>, t: nat, id: ConnectionId)
    requires Ready(lang, d, id) && !d.records[id].userDisconnected && IdleIn(m, t) && FreeOf(m, t, Connection(id))
      && FreeOf(m, t, Network)
    ensures Goes(lang, Calm(id), State(d, m),
                 At(Spawn(lang, d, d.records[id]), m, t, UpPost(d.records[id], false, |d.launches|)))
  {
    hide Goes, FreeOf, HelperOn, Reparses, At, Spawn;
    var stored := d.records[id];
    ReconciliationChecks(lang, d, m, t, id);
    ConnectSpawns(lang, d, m, t, id, stored, false);
    GoesOn(lang, Calm(id), State(d, m), At(d, m, t, UpWantNetwork(stored, false)),
           At(Spawn(lang, d, stored), m, t, UpPost(stored, false, |d.launches|)));
  }

  // ---- a disconnect lost to a stale copy --------------------------------------------------------------

  /** The shared state after the disconnect cleared its marker and the stale copy was written. */
  function Overwritten(d: Shared, id: ConnectionId, next: Record): Shared {
    Save(d.(markers := d.markers - {id}), next)
  }

  /** The threads after the disconnect and the resubmission have answered. */
  function Answered(m: map<nat, Phase>, t: nat, u: nat, id: ConnectionId): map<nat, Phase> {
    m[t := Done(Unit)][u := Done(Id(id))]
  }

  lemma DisconnectAnswers(lang: Language, s: State, t: nat, id: ConnectionId)
    requires PhaseOf(s, t) == DownClear(id, Finish)
    ensures Goes(lang, Calm(id), s, At(s.shared.(markers := s.shared.markers - {id}), s.threads, t, Done(Unit)))
  {
    hide Goes;
    MapSame(s.threads, t);
    Runs(lang, Calm(id), s.shared, s.threads, t, DownClear(id, Finish), Good(id));
  }

  lemma StaleCopyWritten(lang: Language, d: Shared, m: map<nat, Phase>, u: nat, id: ConnectionId, next: Record)
    requires u in m && m[u].AddWantConn? && m[u].next == next && next.id == id && !Lands(m[u])
      && FreeOf(m, u, Connection(id))
    ensures Goes(lang, Calm(id), State(d, m), At(Save(d, next), m, u, Done(Id(id))))
  {
    hide Goes, Save;
    MapSame(m, u);
    Acquires(lang, Calm(id), d, m, u, m[u]);
    Runs(lang, Calm(id), d, m, u, AddHaveConn(next, m[u].moves), Good(id));
    GoesOn(lang, Calm(id), State(d, m), At(d, m, u, AddHaveConn(next, m[u].moves)),
           At(Save(d, next), m, u, Done(Id(id))));
  }

  /** Only the disconnecting thread held the connection's lock. */
  lemma ConnectionFree(s: State, t: nat, u: nat, id: ConnectionId)
    requires Exclusive(s.threads) && t in s.threads && Holds(s.threads[t], Connection(id)) && u != t
    ensures FreeOf(s.threads[t := Done(Unit)], u, Connection(id))
  {
    hide Disjoint;
    forall w | w in s.threads && w != t
      ensures !Holds(s.threads[w], Connection(id))
    {
      DisjointMeans(s.threads[t], s.threads[w], Connection(id));
    }
  }

  lemma StaleIsWaiting(lang: Language, s: State, t: nat, u: nat, id: ConnectionId)
    requires Inv(lang, s) && DisconnectComplete(s, t, id) && StaleCopy(PhaseOf(s, u), id)
    ensures u != t && u in s.threads && s.threads[u].AddWantConn? && !Lands(s.threads[u])
    ensures CopyOk(lang, s.shared, s.threads[u].next)
  {
    hide DataOk, CopyOk, AccessPart, RewritePart, StoredPart, SocketPart, ReplyPart, Disjoint;
    assert ThreadOk(lang, s.shared, s.threads[u]);
    DisjointMeans(s.threads[t], s.threads[u], Connection(id));
  }

  /**
    The proviso of `DisconnectStaysDown` is needed: from every reachable state in
    which the disconnect is complete while a stale copy waits, a run in which
    nothing restores the connection clears the flag.
   */
  lemma StaleCopyLosesFlag(lang: Language, s: State, t: nat, u: nat, id: ConnectionId)
    requires Lawful(lang) && Reachable(lang, s) && DisconnectComplete(s, t, id) && StaleCopy(PhaseOf(s, u), id)
    ensures u in s.threads && s.threads[u].AddWantConn?
    ensures var next := s.threads[u].next;
      Goes(lang, Calm(id), s, State(Overwritten(s.shared, id, next), Answered(s.threads, t, u, id)))
      && Overwritten(s.shared, id, next).records[id] == next && !next.userDisconnected
  {
    hide Goes, Reachable, Lawful, DataOk, ThreadsOk, CopyOk, Exclusive, FreeOf;
    ReachableInv(lang, s);
    StaleIsWaiting(lang, s, t, u, id);
    ConnectionFree(s, t, u, id);
    var next := s.threads[u].next;
    var d1, m1 := s.shared.(markers := s.shared.markers - {id}), s.threads[t := Done(Unit)];
    DisconnectAnswers(lang, s, t, id);
    StaleCopyWritten(lang, d1, m1, u, id, next);
    GoesOn(lang, Calm(id), s, State(d1, m1), At(Save(d1, next), m1, u, Done(Id(id))));
  }

  lemma OverwrittenReady(lang: Language, s: State, t: nat, id: ConnectionId, next: Record)
    requires Inv(lang, s) && DisconnectComplete(s, t, id) && next.id == id && CopyOk(lang, s.shared, next)
    requires |s.shared.records[id].config.peers| == 1
    ensures Ready(lang, Overwritten(s.shared, id, next), id)
  {
    hide DataOk, ThreadsOk, Exclusive, HelperOn;
    CompleteIsFlagged(lang, s, t, id);
    QuietSame(s.shared, Overwritten(s.shared, id, next), id);
  }

  lemma QuietSame(d: Shared, d': Shared, id: ConnectionId)
    requires Quiet(d, id) && d'.sockets == d.sockets && d'.live == d.live && d'.launches == d.launches
    ensures Quiet(d', id)
  {
  }

  lemma AnsweredFree(s: State, t: nat, u: nat, v: nat, id: ConnectionId)
    requires t in s.threads && u in s.threads && v != t && v != u
    requires FreeOf(s.threads[t := Done(Unit)], u, Connection(id)) && LockFree(s, Network)
    ensures FreeOf(Answered(s.threads, t, u, id), v, Connection(id))
      && FreeOf(Answered(s.threads, t, u, id), v, Network)
  {
    hide HoldsIndex;
    var m := Answered(s.threads, t, u, id);
    forall w | w in m && w != v
      ensures !Holds(m[w], Connection(id)) && !Holds(m[w], Network)
    {
      assert w != t && w != u ==> m[w] == s.threads[w] && s.threads[t := Done(Unit)][w] == s.threads[w];
    }
  }

  /** And the next reconciliation connect brings the tunnel up again, although no user asked for it. */
  lemma StaleCopyUndoesDisconnect(lang: Language, s: State, t: nat, u: nat, v: nat, id: ConnectionId)
    requires Lawful(lang) && Reachable(lang, s) && DisconnectComplete(s, t, id) && StaleCopy(PhaseOf(s, u), id)
    requires LockFree(s, Network) && PhaseOf(s, v).Idle? && |s.shared.records[id].config.peers| == 1
    ensures exists s' ::
      Goes(lang, Calm(id), s, s') && HelperOn(s'.shared, InterfaceName(id)) && InterfaceName(id) in s'.shared.sockets
  {
    hide Goes, Reachable, Lawful, Inv, CopyOk, FreeOf, LockFree, Overwritten, HelperOn, Spawn, Reparses;
    ReachableInv(lang, s);
    StaleCopyLosesFlag(lang, s, t, u, id);
    StaleIsWaiting(lang, s, t, u, id);
    InvExclusive(lang, s);
    ConnectionFree(s, t, u, id);
    AnsweredFree(s, t, u, v, id);
    var d, m := Overwritten(s.shared, id, s.threads[u].next), Answered(s.threads, t, u, id);
    OverwrittenReady(lang, s, t, id, s.threads[u].next);
    ReconciliationBringsUp(lang, d, m, v, id);
    SpawnedIsUp(lang, d, d.records[id]);
    GoesOn(lang, Calm(id), s, State(d, m),
           At(Spawn(lang, d, d.records[id]), m, v, UpPost(d.records[id], false, |d.launches|)));
  }

  lemma SpawnedIsUp(lang: Language, d: Shared, stored: Record)
    ensures HelperOn(Spawn(lang, d, stored), stored.interface) && stored.interface in Spawn(lang, d, stored).sockets
  {
    var d' := Spawn(lang, d, stored);
    assert |d.launches| in d'.live && d'.launches[|d.launches|].interface == stored.interface;
  }

  lemma InvExclusive(lang: Language, s: State)
    requires Inv(lang, s)
    ensures Exclusive(s.threads)
  {
  }

  // ---- such states are reachable -------------------------------------------------------------------------

  const UID: nat := 501
  const ID := ConnectionId(0, 0)

  /** A per-user add of this text; the source path tells two submissions apart. */
  function Submission(text: string, source: Option<string>): Add {
    Add(text, false, Some(UID), Manual, None, None, false, source, Verified)
  }

  function FirstRecord(lang: Language, text: string, config: Config): Record {
    NewRecord(Submission(text, None), ID, lang.fingerprint(config), config, text)
  }

  /** The store after one add. */
  function OneRecord(lang: Language, text: string, config: Config): Shared {
    EMPTY_STORE.(
      records := map[ID := FirstRecord(lang, text, config)], minted := {ID}, created := {ID})
  }

  lemma FirstAddDecides(lang: Language, text: string, config: Config)
    requires lang.parse(text) == Some(config)
    ensures Section(lang, EMPTY_STORE, AddIndexed(Submission(text, None)), Good(ID))
         == (EMPTY_STORE.(minted := {ID}), AddCreate(FirstRecord(lang, text, config)))
  {
    assert EMPTY_STORE.minted + {ID} == {ID};
  }

  lemma FirstAdd(lang: Language, text: string, config: Config)
    requires lang.parse(text) == Some(config)
    ensures Goes(lang, Calm(ID), State(EMPTY_STORE, map[]),
                 State(OneRecord(lang, text, config), map[0 := Done(Id(ID))]))
  {
    hide Goes, Section;
    var a, d, m := Submission(text, None), EMPTY_STORE, map[];
    var next := FirstRecord(lang, text, config);
    var d1 := d.(minted := {ID});
    var s := State(d, m);
    Arrives(lang, Calm(ID), d, m, 0, AddRequest(a), UID);
    Acquires(lang, Calm(ID), d, m, 0, AddWantIndex(a));
    GoesOn(lang, Calm(ID), s, At(d, m, 0, AddWantIndex(a)), At(d, m, 0, AddIndexed(a)));
    FirstAddDecides(lang, text, config);
    Runs(lang, Calm(ID), d, m, 0, AddIndexed(a), Good(ID));
    GoesOn(lang, Calm(ID), s, At(d, m, 0, AddIndexed(a)), At(d1, m, 0, AddCreate(next)));
    Runs(lang, Calm(ID), d1, m, 0, AddCreate(next), Good(ID));
    CreateSection(lang, d1, next);
    assert Section(lang, d1, AddCreate(next), Good(ID)).0 == OneRecord(lang, text, config);
    GoesOn(lang, Calm(ID), s, At(d1, m, 0, AddCreate(next)), At(OneRecord(lang, text, config), m, 0, Done(Id(ID))));
  }

  lemma CreateSection(lang: Language, d: Shared, next: Record)
    ensures Section(lang, d, AddCreate(next), Good(ID))
      == (Save(d, next).(created := d.created + {next.id}), Done(Id(next.id)))
  {
  }

  lemma ResubmissionDecides(lang: Language, text: string, config: Config, source: string)
    requires lang.parse(text) == Some(config)
    ensures Section(lang, OneRecord(lang, text, config), AddIndexed(Submission(text, Some(source))), Good(ID))
         == (OneRecord(lang, text, config),
             AddWantConn(FirstRecord(lang, text, config).(sourcePath := Some(source)), false))
  {
    hide NameTaken;
    var d := OneRecord(lang, text, config);
    assert FoundIdentity(d, lang.fingerprint(config), false, Some(UID), ID);
  }

  /** A second submission of the same text waits for the connection's lock with its copy of the record. */
  lemma ResubmissionWaits(lang: Language, text: string, config: Config, source: string, m: map<nat, Phase>, t: nat)
    requires lang.parse(text) == Some(config) && IdleIn(m, t) && FreeOf(m, t, Index)
    ensures Goes(lang, Calm(ID), State(OneRecord(lang, text, config), m),
                 At(OneRecord(lang, text, config), m, t,
                    AddWantConn(FirstRecord(lang, text, config).(sourcePath := Some(source)), false)))
  {
    hide Goes, Section, FreeOf;
    var a, d := Submission(text, Some(source)), OneRecord(lang, text, config);
    var waiting := AddWantConn(FirstRecord(lang, text, config).(sourcePath := Some(source)), false);
    Arrives(lang, Calm(ID), d, m, t, AddRequest(a), UID);
    Acquires(lang, Calm(ID), d, m, t, AddWantIndex(a));
    GoesOn(lang, Calm(ID), State(d, m), At(d, m, t, AddWantIndex(a)), At(d, m, t, AddIndexed(a)));
    ResubmissionDecides(lang, text, config, source);
    Runs(lang, Calm(ID), d, m, t, AddIndexed(a), Good(ID));
    GoesOn(lang, Calm(ID), State(d, m), At(d, m, t, AddIndexed(a)), At(d, m, t, waiting));
  }

  /** The state a user's disconnect of `id` leaves just before it clears the marker. */
  function DisconnectedState(d: Shared, id: ConnectionId): Shared
    requires id in d.records
  {
    BringDown(Save(d, d.records[id].(userDisconnected := true)), InterfaceName(id))
  }

  lemma Marks(lang: Language, d: Shared, id: ConnectionId, c: Choice)
    requires id in d.records && id !in d.unreadable
    ensures Section(lang, d, DisconnectMark(id, true, 0), c)
      == (Save(d, d.records[id].(userDisconnected := true)), DownLoad(id, Finish))
  {
  }

  lemma LoadsForDown(lang: Language, d: Shared, id: ConnectionId, c: Choice)
    requires id in d.records && id !in d.unreadable
    ensures Section(lang, d, DownLoad(id, Finish), c) == (d, DownWantNetwork(id, Finish))
  {
  }

  lemma SavedReadable(d: Shared, r: Record)
    ensures r.id in Save(d, r).records && r.id !in Save(d, r).unreadable
  {
  }

  lemma DisconnectMarks(lang: Language, d: Shared, m: map<nat, Phase>, t: nat, id: ConnectionId)
    requires id in d.records && d.records[id].id == id && id !in d.unreadable && IdleIn(m, t)
    requires FreeOf(m, t, Connection(id))
    ensures Goes(lang, Calm(id), State(d, m),
                 At(Save(d, d.records[id].(userDisconnected := true)), m, t, DownWantNetwork(id, Finish)))
  {
    hide Goes, FreeOf, At, Section, Save;
    var s, c, first := State(d, m), Good(id), DisconnectWantConn(id, true, 0);
    var d1 := Save(d, d.records[id].(userDisconnected := true));
    Arrives(lang, Calm(id), d, m, t, DisconnectRequest(id, true), 0);
    Acquires(lang, Calm(id), d, m, t, first);
    GoesOn(lang, Calm(id), s, At(d, m, t, first), At(d, m, t, Acquired(first)));
    Runs(lang, Calm(id), d, m, t, Acquired(first), c);
    Marks(lang, d, id, c);
    GoesOn(lang, Calm(id), s, At(d, m, t, Acquired(first)), At(d1, m, t, DownLoad(id, Finish)));
    SavedReadable(d, d.records[id].(userDisconnected := true));
    LoadsForDown(lang, d1, id, c);
    Runs(lang, Calm(id), d1, m, t, DownLoad(id, Finish), c);
    GoesOn(lang, Calm(id), s, At(d1, m, t, DownLoad(id, Finish)), At(d1, m, t, DownWantNetwork(id, Finish)));
  }

  lemma DisconnectCompletes(lang: Language, d: Shared, m: map<nat, Phase>, t: nat, id: ConnectionId)
    requires id in d.records && d.records[id].id == id && id !in d.unreadable && IdleIn(m, t)
    requires FreeOf(m, t, Connection(id)) && FreeOf(m, t, Network)
    ensures Goes(lang, Calm(id), State(d, m), At(DisconnectedState(d, id), m, t, DownClear(id, Finish)))
  {
    hide Goes, FreeOf, Save, BringDown;
    var d1, p := Save(d, d.records[id].(userDisconnected := true)), DownWantNetwork(id, Finish);
    DisconnectMarks(lang, d, m, t, id);
    Acquires(lang, Calm(id), d1, m, t, p);
    Runs(lang, Calm(id), d1, m, t, Acquired(p), Good(id));
    GoesOn(lang, Calm(id), At(d1, m, t, p), At(d1, m, t, Acquired(p)),
           At(DisconnectedState(d, id), m, t, DownClear(id, Finish)));
    GoesOn(lang, Calm(id), State(d, m), At(d1, m, t, p), At(DisconnectedState(d, id), m, t, DownClear(id, Finish)));
  }

  /**
    For every language with a usable text: some reachable state has a completed disconnect that a stale copy
    undoes.
   */
  lemma DisconnectCanBeLost(lang: Language, text: string, config: Config)
    requires Lawful(lang) && lang.parse(text) == Some(config) && |config.peers| == 1
    ensures exists s, t, id, s' ::
      && Reachable(lang, s) && DisconnectComplete(s, t, id) && Goes(lang, Calm(id), s, s')
        && HelperOn(s'.shared, InterfaceName(id))
  {
    hide Goes, Reachable, Lawful, HelperOn, FirstRecord;
    var d, m := OneRecord(lang, text, config), map[0 := Done(Id(ID)), 1 := StaleCopyOf(lang, text, config)];
    StaleCopyReachable(lang, text, config);
    FirstRecordFacts(lang, text, config);
    DisconnectCompletes(lang, d, m, 2, ID);
    var s := At(DisconnectedState(d, ID), m, 2, DownClear(ID, Finish));
    ReachesOn(lang, Calm(ID), State(d, m), s);
    StaleCopyUndoesDisconnect(lang, s, 2, 1, 3, ID);
  }

  /** The copy a resubmission with another source path is about to write. */
  function StaleCopyOf(lang: Language, text: string, config: Config): Phase {
    AddWantConn(FirstRecord(lang, text, config).(sourcePath := Some("x")), false)
  }

  /** One connection, and thread 1 waits with its copy. */
  lemma StaleCopyReachable(lang: Language, text: string, config: Config)
    requires lang.parse(text) == Some(config)
    ensures Reachable(lang,
                      State(OneRecord(lang, text, config),
                            map[0 := Done(Id(ID)), 1 := StaleCopyOf(lang, text, config)]))
  {
    hide Goes, Reachable, FirstRecord, OneRecord;
    var d, m := OneRecord(lang, text, config), map[0 := Done(Id(ID))];
    FirstAdd(lang, text, config);
    ResubmissionWaits(lang, text, config, "x", m, 1);
    StartReachable(lang);
    ReachesOn(lang, Calm(ID), State(EMPTY_STORE, map[]), State(d, m));
    assert m[1 := StaleCopyOf(lang, text, config)] == map[0 := Done(Id(ID)), 1 := StaleCopyOf(lang, text, config)];
    ReachesOn(lang, Calm(ID), State(d, m), State(d, m[1 := StaleCopyOf(lang, text, config)]));
  }

  lemma FirstRecordFacts(lang: Language, text: string, config: Config)
    ensures var r := FirstRecord(lang, text, config); r.id == ID && r.config == config && !r.userDisconnected
  {
  }

  // ---- a mismatch after a failed stat -------------------------------------------------------------------

  /** The tunnel of `id` runs on launch `n` and its marker says so. */
  predicate Running(d: Shared, id: ConnectionId, n: nat) {
    && id in d.records && d.records[id].id == id && d.records[id].interface == InterfaceName(id)
    && InterfaceName(id) in d.sockets && d.sockets[InterfaceName(id)] == n
    && n in d.live && n < |d.launches| && d.launches[n].interface == InterfaceName(id)
    && id in d.markers && d.markers[id].socket == n && d.markers[id].fingerprint == d.records[id].fingerprint
  }

  /** The rest of a connect: PostUp succeeds, the marker is saved. */
  lemma LaunchedFinishes(
      lang: Language, other: ConnectionId, d: Shared, m: map<nat, Phase>, t: nat, stored: Record, debug: bool, n: nat)
    requires stored.interface in d.sockets && d.sockets[stored.interface] == n
    ensures var d' := d.(markers := d.markers[stored.id := Marker(stored.fingerprint, n, debug)]);
      Goes(lang, Calm(other), At(d, m, t, UpPost(stored, debug, n)), At(d', m, t, Done(Unit)))
  {
    hide Goes, At;
    var s, c, marker := At(d, m, t, UpPost(stored, debug, n)), Good(stored.id), Marker(stored.fingerprint, n, debug);
    var d' := d.(markers := d.markers[stored.id := marker]);
    Runs(lang, Calm(other), d, m, t, UpPost(stored, debug, n), c);
    Runs(lang, Calm(other), d, m, t, UpSave(stored, marker), c);
    GoesOn(lang, Calm(other), s, At(d, m, t, UpSave(stored, marker)), At(d', m, t, UpOk(stored)));
    Runs(lang, Calm(other), d', m, t, UpOk(stored), c);
    GoesOn(lang, Calm(other), s, At(d', m, t, UpOk(stored)), At(d', m, t, Done(Unit)));
  }

  /** The refreshed text, and what the store holds once the refresh has overlooked the running tunnel. */
  predicate Changes(lang: Language, d: Shared, id: ConnectionId, text: string, config: Config) {
    && id in d.records && d.records[id].mtuOverride.None? && lang.parse(text) == Some(config) && |config.peers| == 1
    && lang.fingerprint(config) != d.records[id].fingerprint && d.unreadable == {}
    && forall other ::
         other in d.records && other != id
         ==> !FoundIdentity(d, lang.fingerprint(config), d.records[id].global, d.records[id].owner, other)
  }

  function Overlooked(lang: Language, d: Shared, id: ConnectionId, text: string, config: Config): Shared
    requires id in d.records
  {
    Save(d.(statFaults := d.statFaults + {id}), Refreshed(lang, d.records[id], config, text, None))
  }

  lemma RefreshDecides(lang: Language, d: Shared, id: ConnectionId, text: string, config: Config, c: Choice)
    requires Changes(lang, d, id, text, config)
    ensures Section(lang, d, RefreshLocked(id, text, None, Verified, 0), c)
         == (d, RefreshAuthed(Refreshed(lang, d.records[id], config, text, None)))
  {
  }

  lemma RefreshStats(lang: Language, d: Shared, n: nat, next: Record, c: Choice)
    requires Running(d, next.id, n) && c.statFails
    ensures Section(lang, d, RefreshAuthed(next), c)
      == (d.(statFaults := d.statFaults + {next.id}), RefreshWrite(next, None))
  {
  }

  lemma RefreshWrites(lang: Language, d: Shared, next: Record, c: Choice)
    ensures Section(lang, d, RefreshWrite(next, None), c) == (Save(d, next), Done(Unit))
  {
  }

  lemma RefreshAuthorizes(
      lang: Language, d: Shared, m: map<nat, Phase>, t: nat, id: ConnectionId, text: string, config: Config)
    requires Changes(lang, d, id, text, config) && IdleIn(m, t)
    requires FreeOf(m, t, Index) && FreeOf(m, t, Connection(id))
    ensures Goes(lang, Calm(id), State(d, m),
                 At(d, m, t, RefreshAuthed(Refreshed(lang, d.records[id], config, text, None))))
  {
    hide Goes, FreeOf, At, Section, Refreshed;
    var s, c := State(d, m), Good(id);
    var p0 := RefreshWantIndex(id, text, None, Verified, 0);
    var p1, p2 := RefreshWantConn(id, text, None, Verified, 0), RefreshLocked(id, text, None, Verified, 0);
    var next := Refreshed(lang, d.records[id], config, text, None);
    Arrives(lang, Calm(id), d, m, t, RefreshRequest(id, text, None, Verified), 0);
    Acquires(lang, Calm(id), d, m, t, p0);
    GoesOn(lang, Calm(id), s, At(d, m, t, p0), At(d, m, t, p1));
    Acquires(lang, Calm(id), d, m, t, p1);
    GoesOn(lang, Calm(id), s, At(d, m, t, p1), At(d, m, t, p2));
    RefreshDecides(lang, d, id, text, config, c);
    Runs(lang, Calm(id), d, m, t, p2, c);
    GoesOn(lang, Calm(id), s, At(d, m, t, p2), At(d, m, t, RefreshAuthed(next)));
  }

  lemma RefreshOverlooks(
      lang: Language, d: Shared, m: map<nat, Phase>, t: nat, id: ConnectionId, n: nat, text: string, config: Config)
    requires Changes(lang, d, id, text, config) && Running(d, id, n) && IdleIn(m, t)
    requires FreeOf(m, t, Index) && FreeOf(m, t, Connection(id))
    ensures Goes(lang, Calm(id), State(d, m), At(Overlooked(lang, d, id, text, config), m, t, Done(Unit)))
  {
    hide Goes, FreeOf, At, Section, Save, Changes;
    var next := Refreshed(lang, d.records[id], config, text, None);
    var d2, blind := d.(statFaults := d.statFaults + {id}), Choice(id, true, false, true);
    RefreshAuthorizes(lang, d, m, t, id, text, config);
    RefreshStats(lang, d, n, next, blind);
    Runs(lang, Calm(id), d, m, t, RefreshAuthed(next), blind);
    GoesOn(lang, Calm(id), State(d, m), At(d, m, t, RefreshAuthed(next)), At(d2, m, t, RefreshWrite(next, None)));
    RefreshWrites(lang, d2, next, blind);
    Runs(lang, Calm(id), d2, m, t, RefreshWrite(next, None), blind);
    GoesOn(lang, Calm(id), State(d, m), At(d2, m, t, RefreshWrite(next, None)), At(Save(d2, next), m, t, Done(Unit)));
  }

  /** A connect that finds a socket, up to the check. */
  lemma ConnectFindsSocket(lang: Language, d: Shared, m: map<nat, Phase>, t: nat, id: ConnectionId)
    requires id in d.records && id !in d.unreadable && d.records[id].id == id && !d.records[id].userDisconnected
    requires Reparses(lang, d.records[id]) && |d.records[id].config.peers| == 1 && d.records[id].interface in d.sockets
    requires IdleIn(m, t) && FreeOf(m, t, Connection(id))
    ensures Goes(lang, Calm(id), State(d, m), At(d, m, t, UpWantClear(d.records[id], false)))
  {
    hide Goes, FreeOf, Reparses, At;
    var s, c, first := State(d, m), Good(id), ConnectWantConn(id, false, Reconciliation, 0);
    Arrives(lang, Calm(id), d, m, t, ConnectRequest(id, false, Reconciliation), 0);
    Acquires(lang, Calm(id), d, m, t, first);
    GoesOn(lang, Calm(id), s, At(d, m, t, first), At(d, m, t, Acquired(first)));
    Runs(lang, Calm(id), d, m, t, Acquired(first), c);
    GoesOn(lang, Calm(id), s, At(d, m, t, Acquired(first)), At(d, m, t, UpLoad(id, false)));
    Runs(lang, Calm(id), d, m, t, UpLoad(id, false), c);
    GoesOn(lang, Calm(id), s, At(d, m, t, UpLoad(id, false)), At(d, m, t, UpWantClear(d.records[id], false)));
  }

  /** With a live helper of another fingerprint behind the marker the check answers with a mismatch. */
  lemma CheckMismatches(lang: Language, d: Shared, m: map<nat, Phase>, t: nat, id: ConnectionId, stored: Record)
    requires stored.id == id && HelperOn(d, stored.interface) && FreeOf(m, t, Network)
    requires stored.interface in d.sockets && id in d.markers && d.markers[id].socket == d.sockets[stored.interface]
    requires d.markers[id].fingerprint != stored.fingerprint
    ensures Goes(lang, Calm(id), At(d, m, t, UpWantClear(stored, false)), At(d, m, t, Done(Mismatch(id))))
  {
    hide Goes, FreeOf, HelperOn, At;
    var p, c := UpWantClear(stored, false), Good(id);
    Acquires(lang, Calm(id), d, m, t, p);
    Runs(lang, Calm(id), d, m, t, Acquired(p), c);
    GoesOn(lang, Calm(id), At(d, m, t, p), At(d, m, t, Acquired(p)), At(d, m, t, UpCheck(stored, false)));
    Runs(lang, Calm(id), d, m, t, UpCheck(stored, false), c);
    GoesOn(lang, Calm(id), At(d, m, t, p), At(d, m, t, UpCheck(stored, false)), At(d, m, t, Done(Mismatch(id))));
  }

  lemma OverlookedFacts(lang: Language, d: Shared, id: ConnectionId, n: nat, text: string, config: Config)
    requires Changes(lang, d, id, text, config) && Running(d, id, n) && !d.records[id].userDisconnected
    ensures var d' := Overlooked(lang, d, id, text, config);
      && id in d'.records && id !in d'.unreadable
        && d'.records[id] == Refreshed(lang, d.records[id], config, text, None)
      && Reparses(lang, d'.records[id]) && HelperOn(d', InterfaceName(id))
      && d'.sockets == d.sockets && d'.markers == d.markers && id in d'.statFaults
  {
    var d' := Overlooked(lang, d, id, text, config);
    assert n in d'.live && n < |d'.launches| && d'.launches[n].interface == InterfaceName(id);
  }

  /**
    From every state with a running tunnel: a refresh whose stat fails, then a connect, and the answer is a
    mismatch.
   */
  lemma FailedStatMismatches(
      lang: Language, d: Shared, m: map<nat, Phase>, t: nat, u: nat, id: ConnectionId, n: nat, text: string,
      config: Config)
    requires Changes(lang, d, id, text, config) && Running(d, id, n) && !d.records[id].userDisconnected
    requires IdleIn(m, t) && IdleIn(m, u) && t != u
    requires FreeOf(m, t, Index) && FreeOf(m, t, Connection(id)) && FreeOf(m, u, Connection(id))
      && FreeOf(m, u, Network)
    ensures Goes(lang, Calm(id), State(d, m),
                 At(Overlooked(lang, d, id, text, config), m[t := Done(Unit)], u, Done(Mismatch(id))))
  {
    hide Goes, Changes, Overlooked, Reparses, HelperOn;
    var d', m' := Overlooked(lang, d, id, text, config), m[t := Done(Unit)];
    OverlookedFacts(lang, d, id, n, text, config);
    ChangesFacts(lang, d, id, text, config);
    RefreshOverlooks(lang, d, m, t, id, n, text, config);
    assert FreeOf(m', u, Connection(id)) && FreeOf(m', u, Network);
    ConnectFindsSocket(lang, d', m', u, id);
    GoesOn(lang, Calm(id), State(d, m), State(d', m'), At(d', m', u, UpWantClear(d'.records[id], false)));
    CheckMismatches(lang, d', m', u, id, d'.records[id]);
    GoesOn(lang, Calm(id), State(d, m), At(d', m', u, UpWantClear(d'.records[id], false)),
           At(d', m', u, Done(Mismatch(id))));
  }

  lemma ChangesFacts(lang: Language, d: Shared, id: ConnectionId, text: string, config: Config)
    requires Changes(lang, d, id, text, config)
    ensures |config.peers| == 1 && lang.fingerprint(config) != d.records[id].fingerprint
  {
  }

  /** The store after one add and one successful connect. */
  function OneTunnel(lang: Language, text: string, config: Config): Shared {
    Spawn(lang, OneRecord(lang, text, config), FirstRecord(lang, text, config)).(
      markers := map[ID := Marker(lang.fingerprint(config), 0, false)])
  }

  lemma FirstTunnel(lang: Language, text: string, config: Config, m: map<nat, Phase>, t: nat)
    requires lang.parse(text) == Some(config) && |config.peers| == 1 && IdleIn(m, t)
    requires FreeOf(m, t, Connection(ID)) && FreeOf(m, t, Network)
    ensures Goes(lang, Calm(ID), State(OneRecord(lang, text, config), m),
                 At(OneTunnel(lang, text, config), m, t, Done(Unit)))
  {
    hide Goes, FreeOf, HelperOn;
    var d, r := OneRecord(lang, text, config), FirstRecord(lang, text, config);
    NoHelperYet(lang, text, config);
    ReconciliationBringsUp(lang, d, m, t, ID);
    LaunchedFinishes(lang, ID, Spawn(lang, d, r), m, t, r, false, 0);
    GoesOn(lang, Calm(ID), State(d, m), At(Spawn(lang, d, r), m, t, UpPost(r, false, 0)),
           At(OneTunnel(lang, text, config), m, t, Done(Unit)));
  }

  lemma NoHelperYet(lang: Language, text: string, config: Config)
    ensures !HelperOn(OneRecord(lang, text, config), InterfaceName(ID))
  {
  }

  /** Some run, in which one stat fails, ends with the mismatch answer. */
  lemma MismatchIsReachable(lang: Language, text: string, config: Config, text': string, config': Config)
    requires lang.parse(text) == Some(config) && lang.parse(text') == Some(config')
    requires |config.peers| == 1 && |config'.peers| == 1 && lang.fingerprint(config) != lang.fingerprint(config')
    ensures exists s :: Reachable(lang, s) && PhaseOf(s, 3) == Done(Mismatch(ID)) && ID in s.shared.statFaults
  {
    hide Goes, Reachable, OneTunnel, OneRecord, Overlooked;
    var start, m := State(EMPTY_STORE, map[]), map[0 := Done(Id(ID))];
    var d, m1 := OneTunnel(lang, text, config), m[1 := Done(Unit)];
    FirstAdd(lang, text, config);
    FirstTunnel(lang, text, config, m, 1);
    GoesOn(lang, Calm(ID), start, State(OneRecord(lang, text, config), m), State(d, m1));
    TunnelFacts(lang, text, config, text', config');
    FailedStatMismatches(lang, d, m1, 2, 3, ID, 0, text', config');
    var s := At(Overlooked(lang, d, ID, text', config'), m1[2 := Done(Unit)], 3, Done(Mismatch(ID)));
    GoesOn(lang, Calm(ID), start, State(d, m1), s);
    StartReachable(lang);
    ReachesOn(lang, Calm(ID), start, s);
    OverlookedFacts(lang, d, ID, 0, text', config');
  }

  lemma TunnelFacts(lang: Language, text: string, config: Config, text': string, config': Config)
    requires lang.parse(text') == Some(config') && |config'.peers| == 1
      && lang.fingerprint(config) != lang.fingerprint(config')
    ensures var d := OneTunnel(lang, text, config);
      Running(d, ID, 0) && Changes(lang, d, ID, text', config') && !d.records[ID].userDisconnected
  {
  }
}
